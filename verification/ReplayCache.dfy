/** The bounded replay cache of the webhook receiver (routes/webhooks.ts), in milliseconds. */
module ReplayCache {

  const REPLAY_WINDOW_MS: int := 600_000

  datatype Delivery = Delivery(id: string, at: int)

  /** The store without the entries that have left the window. */
  function Pruned(store: map<string, int>, now: int): map<string, int> {
    map id | id in store && now - store[id] <= REPLAY_WINDOW_MS :: store[id]
  }

  predicate Seen(store: map<string, int>, d: Delivery) {
    d.id in store && d.at - store[d.id] <= REPLAY_WINDOW_MS
  }

  function Marked(store: map<string, int>, maxSize: int, d: Delivery): map<string, int> {
    if Seen(store, d) then store
    else (if |store| >= maxSize then Pruned(store, d.at) else store)[d.id := d.at]
  }

  /** The store after a history of markSeen calls. */
  function StoreAfter(maxSize: int, history: seq<Delivery>): map<string, int> {
    if history == [] then map[]
    else Marked(StoreAfter(maxSize, history[..|history| - 1]), maxSize, history[|history| - 1])
  }

  /** What markSeen answers to call `i`. */
  predicate Answer(maxSize: int, history: seq<Delivery>, i: nat) {
    i < |history| && !Seen(StoreAfter(maxSize, history[..i]), history[i])
  }

  // ---------------------------------------------------------------------------
  // The unbounded log
  // ---------------------------------------------------------------------------

  /** Call `i` is new: its id was not accepted within the last ten minutes. */
  predicate IsNew(history: seq<Delivery>, i: nat)
    decreases i
  {
    i < |history| &&
    forall j :: 0 <= j < i && history[j].id == history[i].id && history[i].at - history[j].at <= 600_000 ==>
      !IsNew(history, j)
  }

  ghost predicate ClockForward(history: seq<Delivery>) {
    forall i, j :: 0 <= i <= j < |history| ==> history[i].at <= history[j].at
  }

  /** What the store must remember of a history: entries are accepted calls, and an accepted call
      is forgotten only for a later one of the same id or once it has left the window. */
  ghost predicate Remembers(store: map<string, int>, history: seq<Delivery>) {
    && (forall id :: id in store ==>
          exists j :: 0 <= j < |history| && history[j] == Delivery(id, store[id]) && IsNew(history, j))
    && (forall j :: 0 <= j < |history| && IsNew(history, j) ==>
          (history[j].id in store && history[j].at <= store[history[j].id]) ||
          history[|history| - 1].at - history[j].at > REPLAY_WINDOW_MS)
  }

  lemma {:induction false} IsNewPrefix(history: seq<Delivery>, n: nat, i: nat)
    requires i < n <= |history|
    ensures IsNew(history[..n], i) == IsNew(history, i)
    decreases i
  {
    forall j | 0 <= j < i
      ensures IsNew(history[..n], j) == IsNew(history, j)
    {
      IsNewPrefix(history, n, j);
    }
  }

  lemma SeenIsOld(store: map<string, int>, history: seq<Delivery>, n: nat)
    requires n < |history| && Remembers(store, history[..n]) && Seen(store, history[n])
    ensures !IsNew(history, n)
  {
    var past, d := history[..n], history[n];
    var j :| 0 <= j < n && past[j] == Delivery(d.id, store[d.id]) && IsNew(past, j);
    IsNewPrefix(history, n, j);
    assert history[j].id == d.id && d.at - history[j].at <= REPLAY_WINDOW_MS;
  }

  lemma OldIsSeen(store: map<string, int>, history: seq<Delivery>, n: nat, j: nat)
    requires j < n < |history| && ClockForward(history) && Remembers(store, history[..n])
    requires history[j].id == history[n].id && history[n].at - history[j].at <= REPLAY_WINDOW_MS && IsNew(history, j)
    ensures Seen(store, history[n])
  {
    var past := history[..n];
    IsNewPrefix(history, n, j);
    assert past[j] == history[j] && past[n - 1] == history[n - 1];
    assert history[n - 1].at <= history[n].at;
  }

  /** The cache answers the next call as the unbounded log does. */
  lemma SeenIsNotNew(store: map<string, int>, history: seq<Delivery>, n: nat)
    requires n < |history| && ClockForward(history) && Remembers(store, history[..n])
    ensures Seen(store, history[n]) <==> !IsNew(history, n)
  {
    if Seen(store, history[n]) {
      SeenIsOld(store, history, n);
    } else if !IsNew(history, n) {
      var j :| 0 <= j < n && history[j].id == history[n].id &&
               history[n].at - history[j].at <= REPLAY_WINDOW_MS && IsNew(history, j);
      OldIsSeen(store, history, n, j);
    }
  }

  /** Entries after a call are accepted calls. */
  lemma EntriesNext(store: map<string, int>, maxSize: int, history: seq<Delivery>, id: string)
    requires history != [] && ClockForward(history)
    requires Remembers(store, history[..|history| - 1])
    requires id in Marked(store, maxSize, history[|history| - 1])
    ensures exists j :: 0 <= j < |history| && IsNew(history, j) &&
              history[j] == Delivery(id, Marked(store, maxSize, history[|history| - 1])[id])
  {
    var n := |history| - 1;
    var past, d := history[..n], history[n];
    SeenIsNotNew(store, history, n);
    if id == d.id && !Seen(store, d) {
      assert IsNew(history, n);
    } else {
      assert id in store && Marked(store, maxSize, d)[id] == store[id];
      var j :| 0 <= j < n && past[j] == Delivery(id, store[id]) && IsNew(past, j);
      IsNewPrefix(history, n, j);
      assert history[j] == past[j];
    }
  }

  /** An accepted call survives in the store or has left the window. */
  lemma AcceptedNext(store: map<string, int>, maxSize: int, history: seq<Delivery>, j: nat)
    requires history != [] && ClockForward(history)
    requires Remembers(store, history[..|history| - 1])
    requires j < |history| && IsNew(history, j)
    ensures var store' := Marked(store, maxSize, history[|history| - 1]);
            (history[j].id in store' && history[j].at <= store'[history[j].id]) ||
            history[|history| - 1].at - history[j].at > REPLAY_WINDOW_MS
  {
    var n := |history| - 1;
    var past, d := history[..n], history[n];
    if j < n {
      IsNewPrefix(history, n, j);
      assert past[j] == history[j] && past[n - 1].at <= d.at && history[j].at <= d.at;
      Survives(store, maxSize, d, history[j]);
    } else {
      SeenIsNotNew(store, history, n);
    }
  }

  /** An entry inside the window outlives a call, or gives way to a later one of the same id. */
  lemma Survives(store: map<string, int>, maxSize: int, d: Delivery, e: Delivery)
    requires e.at <= d.at
    ensures e.id in store && e.at <= store[e.id] && d.at - e.at <= REPLAY_WINDOW_MS ==>
              e.id in Marked(store, maxSize, d) && e.at <= Marked(store, maxSize, d)[e.id]
  {
  }

  lemma RemembersNext(store: map<string, int>, maxSize: int, history: seq<Delivery>)
    requires history != [] && ClockForward(history)
    requires Remembers(store, history[..|history| - 1])
    ensures Remembers(Marked(store, maxSize, history[|history| - 1]), history)
  {
    var store' := Marked(store, maxSize, history[|history| - 1]);
    forall id | id in store'
      ensures exists j :: 0 <= j < |history| && history[j] == Delivery(id, store'[id]) && IsNew(history, j)
    {
      EntriesNext(store, maxSize, history, id);
    }
    forall j | 0 <= j < |history| && IsNew(history, j)
      ensures (history[j].id in store' && history[j].at <= store'[history[j].id]) ||
              history[|history| - 1].at - history[j].at > REPLAY_WINDOW_MS
    {
      AcceptedNext(store, maxSize, history, j);
    }
  }

  lemma {:induction false} StoreRemembers(maxSize: int, history: seq<Delivery>)
    requires ClockForward(history)
    ensures Remembers(StoreAfter(maxSize, history), history)
  {
    if history != [] {
      var n := |history| - 1;
      StoreRemembers(maxSize, history[..n]);
      RemembersNext(StoreAfter(maxSize, history[..n]), maxSize, history);
    }
  }

  /** For every bound on the cache, markSeen answers as the unbounded log would: pruning never
      changes an answer. */
  lemma PruningIsInvisible(maxSize: int, history: seq<Delivery>, i: nat)
    requires i < |history| && ClockForward(history)
    ensures Answer(maxSize, history, i) <==> IsNew(history, i)
  {
    StoreRemembers(maxSize, history[..i]);
    SeenIsNotNew(StoreAfter(maxSize, history[..i]), history, i);
  }

  // ---------------------------------------------------------------------------
  // A clock that steps back
  // ---------------------------------------------------------------------------

  /** No call is stamped more than `back` milliseconds before an earlier one. */
  ghost predicate StepsBackAtMost(back: nat, history: seq<Delivery>) {
    forall i, j :: 0 <= i <= j < |history| ==> history[i].at - history[j].at <= back
  }

  ghost predicate AlwaysInvisible(maxSize: int, back: nat) {
    forall history: seq<Delivery>, i: nat | i < |history| && StepsBackAtMost(back, history) ::
      Answer(maxSize, history, i) <==> IsNew(history, i)
  }

  function Name(k: nat): string { seq(k + 1, _ => 'w') }

  /** One delivery at 0, then `n` others just after it has left the window. */
  function Filling(n: nat): (h: seq<Delivery>)
    ensures |h| == n + 1
  {
    seq(n + 1, k requires 0 <= k <= n => Delivery(Name(k), if k == 0 then 0 else REPLAY_WINDOW_MS + 1))
  }

  lemma {:induction false} FillingFills(maxSize: int, n: nat)
    requires n == 0 || n < maxSize
    ensures var store := StoreAfter(maxSize, Filling(n));
            |store| == n + 1 && Name(0) in store && store[Name(0)] == 0 && forall id :: id in store ==> |id| <= n + 1
  {
    var h := Filling(n);
    if n > 0 {
      FillingFills(maxSize, n - 1);
      assert h[..n] == Filling(n - 1);
    } else {
      assert h[..0] == [];
    }
  }

  /** Once the cache is full, the next insertion prunes the first delivery. */
  lemma FullCachePrunes(maxSize: int, n: nat)
    requires n == (if maxSize < 1 then 1 else maxSize)
    ensures Name(0) !in StoreAfter(maxSize, Filling(n))
  {
    FillingFills(maxSize, n - 1);
    assert Filling(n)[..n] == Filling(n - 1);
    assert |Name(0)| != |Name(n)|;
  }

  /** A clock that goes back by a single millisecond lets a replay through. */
  lemma BackwardClockShowsPruning(maxSize: int) returns (history: seq<Delivery>)
    ensures StepsBackAtMost(1, history) && history != []
    ensures Answer(maxSize, history, |history| - 1) && !IsNew(history, |history| - 1)
  {
    var n := if maxSize < 1 then 1 else maxSize;
    history := Filling(n) + [Delivery(Name(0), REPLAY_WINDOW_MS)];
    FullCachePrunes(maxSize, n);
    assert history[..n + 1] == Filling(n);
    assert IsNew(history, 0) && history[0] == Delivery(Name(0), 0);
  }

  /** Whatever the size bound, pruning stays invisible exactly when the clock never steps back. */
  lemma InvisibleIffClockForward(maxSize: int, back: nat)
    ensures AlwaysInvisible(maxSize, back) <==> back == 0
  {
    if back == 0 {
      forall history: seq<Delivery>, i: nat | i < |history| && StepsBackAtMost(back, history)
        ensures Answer(maxSize, history, i) <==> IsNew(history, i)
      {
        PruningIsInvisible(maxSize, history, i);
      }
    } else {
      var history := BackwardClockShowsPruning(maxSize);
      assert StepsBackAtMost(back, history);
    }
  }

  /** A call `d` after `history` is new. */
  predicate NewAtEnd(history: seq<Delivery>, d: Delivery) { IsNew(history + [d], |history|) }

  lemma HistorySnoc(maxSize: int, history: seq<Delivery>, d: Delivery)
    ensures StoreAfter(maxSize, history + [d]) == Marked(StoreAfter(maxSize, history), maxSize, d)
    ensures ClockForward(history + [d]) ==>
              (Seen(StoreAfter(maxSize, history), d) <==> !NewAtEnd(history, d))
  {
    var all := history + [d];
    assert all[..|history|] == history;
    if ClockForward(all) { PruningIsInvisible(maxSize, all, |history|); }
  }

  class Cache {
    const maxSize: int
    var store: map<string, int>
    ghost var history: seq<Delivery>

    ghost predicate IsCurrent()
      reads this
    {
      store == StoreAfter(maxSize, history)
    }

    constructor (max: int)
      ensures IsCurrent() && maxSize == max && history == []
    {
      maxSize, store, history := max, map[], [];
    }

    method Prune(now: int)
      modifies this`store
      ensures store == Pruned(old(store), now)
      ensures forall id :: id in store <==> id in old(store) && now - old(store)[id] <= 600_000
      ensures forall id :: id in store ==> store[id] == old(store)[id]
    {
      var todo := store.Keys;
      while todo != {}
        invariant todo <= store.Keys <= old(store).Keys
        invariant forall id :: id in store ==> store[id] == old(store)[id]
        invariant forall id :: id in store && id !in todo ==> now - store[id] <= REPLAY_WINDOW_MS
        invariant forall id :: id in old(store) && id !in store ==> now - old(store)[id] > REPLAY_WINDOW_MS
      {
        var id :| id in todo;
        todo := todo - {id};
        if now - store[id] > REPLAY_WINDOW_MS {
          store := store - {id};
        }
      }
    }

    method Mark(id: string, now: int) returns (isFirst: bool)
      modifies this`store
      ensures store == Marked(old(store), maxSize, Delivery(id, now))
      ensures isFirst == !Seen(old(store), Delivery(id, now))
    {
      if id in store {
        if now - store[id] <= REPLAY_WINDOW_MS {
          return false;
        }
      }
      if |store| >= maxSize {
        Prune(now);
      }
      store := store[id := now];
      return true;
    }

    method MarkSeen(id: string, now: int) returns (isFirst: bool)
      requires IsCurrent()
      modifies this
      ensures IsCurrent() && history == old(history) + [Delivery(id, now)]
      ensures ClockForward(history) ==> isFirst == NewAtEnd(old(history), Delivery(id, now))
    {
      isFirst := Mark(id, now);
      HistorySnoc(maxSize, history, Delivery(id, now));
      history := history + [Delivery(id, now)];
    }

    method HasSeen(id: string, now: int) returns (seen: bool)
      requires IsCurrent() && ClockForward(history + [Delivery(id, now)])
      ensures seen == !NewAtEnd(history, Delivery(id, now))
    {
      HistorySnoc(maxSize, history, Delivery(id, now));
      if id !in store {
        return false;
      }
      return now - store[id] <= REPLAY_WINDOW_MS;
    }
  }
}
