/** Which names of subscribers, merchants and tokens the reconciler's joined keys can carry. */
module PartyNames {
  import opened Wrappers
  import opened Keys
  import opened Reconciler
  import OM = OrderedMap
  import DryRun

  type Triple = (string, string, string)

  ghost predicate RowsOver(rows: seq<ChainEvent>, parties: set<Triple>) {
    forall i :: 0 <= i < |rows| ==> (rows[i].subscriber, rows[i].merchant, rows[i].token) in parties
  }

  ghost predicate ColonFreeNames(parties: set<Triple>) {
    forall p :: p in parties ==> TripleColonFree(p.0, p.1, p.2)
  }

  lemma OverColonFree(rows: seq<ChainEvent>, parties: set<Triple>)
    requires RowsOver(rows, parties) && ColonFreeNames(parties)
    ensures EventsColonFree(rows)
  {
    forall i | 0 <= i < |rows|
      ensures TripleColonFree(rows[i].subscriber, rows[i].merchant, rows[i].token)
    {
      var p := (rows[i].subscriber, rows[i].merchant, rows[i].token);
      assert p in parties;
    }
  }

  // ---------------------------------------------------------------------------
  // What each property says of all logs and databases
  // ---------------------------------------------------------------------------

  /** Whatever log these parties produce, the database loaded from it needs no repair. */
  ghost predicate AlwaysInSync(parties: set<Triple>, interval: int) {
    forall rows :: RowsOver(rows, parties) && OM.Valid(Load(rows, interval)) ==>
      Reconcile(rows, Load(rows, interval), interval, false).1 == Report([], ReplayErrors(rows, interval))
  }

  ghost predicate IsRepaired(events: seq<ChainEvent>, db: DB, interval: int, k: string) {
    OM.Valid(db) &&
    var x, db' := Replay(events, interval), Reconcile(events, db, interval, false).0;
    if k in x.vals then Agrees(x, db', k) else OM.Get(db', k) == OM.Get(db, k)
  }

  /** A reconcile that reports leaves every replayed key right and every other key alone. */
  ghost predicate AlwaysRepairs(parties: set<Triple>, interval: int) {
    forall events, db: DB, k |
      RowsOver(events, parties) && OM.Valid(db) && Reconcile(events, db, interval, false).1.Report? ::
      IsRepaired(events, db, interval, k)
  }

  ghost predicate IsIdempotent(events: seq<ChainEvent>, db: DB, interval: int) {
    OM.Valid(db) && Reconcile(events, db, interval, false).1.Report? &&
    var once := Reconcile(events, db, interval, false);
    OM.Valid(once.0) && Reconcile(events, once.0, interval, false) == (once.0, Report([], once.1.errors))
  }

  ghost predicate AlwaysIdempotent(parties: set<Triple>, interval: int) {
    forall events, db: DB |
      RowsOver(events, parties) && OM.Valid(db) && Reconcile(events, db, interval, false).1.Report? ::
      IsIdempotent(events, db, interval)
  }

  ghost predicate ThrowsAsStated(events: seq<ChainEvent>, db: DB, interval: int) {
    OM.Valid(db) &&
    (Reconcile(events, db, interval, false).1.Threw? <==> SomeUnreadable(Replay(events, interval), db))
  }

  ghost predicate AlwaysThrowsAsStated(parties: set<Triple>, interval: int) {
    forall events, db: DB | RowsOver(events, parties) && OM.Valid(db) :: ThrowsAsStated(events, db, interval)
  }

  ghost predicate ReportsTheSame(events: seq<ChainEvent>, db: DB, interval: int) {
    OM.Valid(db) && Reconcile(events, db, interval, true).1 == Reconcile(events, db, interval, false).1
  }

  ghost predicate AlwaysReportsTheSame(parties: set<Triple>, interval: int) {
    forall events, db: DB | RowsOver(events, parties) && OwnKeys(db) :: ReportsTheSame(events, db, interval)
  }

  // ---------------------------------------------------------------------------
  // One party with a colon in its names
  // ---------------------------------------------------------------------------

  function SubscribeOf(p: Triple): ChainEvent { ChainEvent(Subscribe, p.0, p.1, p.2, 1, 0) }

  function CancelOf(p: Triple): ChainEvent { ChainEvent(Cancel, p.0, p.1, p.2, 1, 0) }

  function KeyOf(p: Triple): string { Join(p.0, p.1, p.2) }

  function RecordOf(p: Triple, interval: int): Subscription { Subscribed(SubscribeOf(p), None, interval) }

  /** A database with a single record. */
  function Single(k: string, r: Subscription): DB { OM.Map([k], map[k := r]) }

  /** A replay that wants one key: a record, or nothing. */
  function WantsOne(k: string, want: Option<Subscription>): Expected { OM.Map([k], map[k := want]) }

  lemma ReplayOfOne(e: ChainEvent, interval: int)
    requires e.kind == Subscribe || e.kind == Cancel
    ensures Replay([e], interval) ==
            WantsOne(EventKey(e), if e.kind == Cancel then None else Some(Subscribed(e, None, interval)))
    ensures ReplayErrors([e], interval) == []
  {
    assert [e][..0] == [];
    assert [] + [EventKey(e)] == [EventKey(e)];
  }

  lemma DiffOfOne(k: string, want: Option<Subscription>, db: DB, readOnly: bool)
    ensures Diff(WantsOne(k, want), db, readOnly, 1) == Visit(Progress(db, [], false), k, want, readOnly)
  {
    assert Diff(WantsOne(k, want), db, readOnly, 0) == Progress(db, [], false);
  }

  /** Reconcile of a single event is one turn of the diff loop. */
  lemma ReconcileOfOne(e: ChainEvent, db: DB, interval: int, readOnly: bool)
    requires (e.kind == Subscribe || e.kind == Cancel) && OM.Valid(db)
    ensures var k, want := EventKey(e), if e.kind == Cancel then None else Some(Subscribed(e, None, interval));
            var p := Visit(Progress(db, [], false), k, want, readOnly);
            && OM.Valid(p.db)
            && Reconcile([e], db, interval, readOnly) ==
               (p.db, if p.threw then Threw else Report(p.repairs, Orphans(p.db, p.db.keys, WantsOne(k, want))))
  {
    var k, want := EventKey(e), if e.kind == Cancel then None else Some(Subscribed(e, None, interval));
    ReplayOfOne(e, interval);
    ReplayKeyed([e], interval);
    DiffValid(WantsOne(k, want), db, readOnly, 1);
    DiffOfOne(k, want, db, readOnly);
    var p := Visit(Progress(db, [], false), k, want, readOnly);
    assert [] + Orphans(p.db, p.db.keys, WantsOne(k, want)) == Orphans(p.db, p.db.keys, WantsOne(k, want));
  }

  /** The lookup for a key with a stray colon goes elsewhere. */
  lemma LooksElsewhere(p: Triple)
    requires !TripleColonFree(p.0, p.1, p.2)
    ensures Rejoin(KeyOf(p)) != KeyOf(p)
  {
    RejoinIsIdentity(p.0, p.1, p.2);
  }

  /** The record is inserted under its key but looked up elsewhere, so it is inserted again. */
  lemma ColonInsertsAgain(p: Triple, interval: int)
    requires !TripleColonFree(p.0, p.1, p.2)
    ensures var db: DB := OM.Map([], map[]);
            Reconcile([SubscribeOf(p)], db, interval, false).1.Report? && !IsIdempotent([SubscribeOf(p)], db, interval)
  {
    LooksElsewhere(p);
    var e, db: DB := SubscribeOf(p), OM.Map([], map[]);
    ReconcileOfOne(e, db, interval, false);
    var once := Single(KeyOf(p), RecordOf(p, interval));
    assert [] + [KeyOf(p)] == [KeyOf(p)];
    assert Reconcile([e], db, interval, false).0 == once;
    ReconcileOfOne(e, once, interval, false);
  }

  /** The same from the loaded database: the lookup misses the record that is there. */
  lemma ColonCausesRepair(p: Triple, interval: int)
    requires !TripleColonFree(p.0, p.1, p.2)
    ensures var rows := [SubscribeOf(p)];
            && OM.Valid(Load(rows, interval))
            && Reconcile(rows, Load(rows, interval), interval, false).1 != Report([], ReplayErrors(rows, interval))
  {
    var rows := [SubscribeOf(p)];
    LooksElsewhere(p);
    assert rows[..0] == [] && [] + [KeyOf(p)] == [KeyOf(p)];
    assert Load(rows, interval) == Single(KeyOf(p), RecordOf(p, interval));
    ReconcileOfOne(SubscribeOf(p), Load(rows, interval), interval, false);
  }

  /** A cancelled record stays, because the lookup misses it. */
  lemma ColonKeepsCancelled(p: Triple, interval: int)
    requires !TripleColonFree(p.0, p.1, p.2)
    ensures var db := Single(KeyOf(p), RecordOf(p, interval));
            && OM.Valid(db) && Reconcile([CancelOf(p)], db, interval, false).1.Report?
            && !IsRepaired([CancelOf(p)], db, interval, KeyOf(p))
  {
    var db := Single(KeyOf(p), RecordOf(p, interval));
    LooksElsewhere(p);
    ReplayOfOne(CancelOf(p), interval);
    ReconcileOfOne(CancelOf(p), db, interval, false);
  }

  /** An unreadable amount goes unread. */
  lemma ColonHidesUnreadable(p: Triple, interval: int)
    requires !TripleColonFree(p.0, p.1, p.2)
    ensures var db := Single(KeyOf(p), RecordOf(p, interval).(amount := Text("x", None)));
            OM.Valid(db) && !ThrowsAsStated([SubscribeOf(p)], db, interval)
  {
    var db := Single(KeyOf(p), RecordOf(p, interval).(amount := Text("x", None)));
    LooksElsewhere(p);
    ReplayOfOne(SubscribeOf(p), interval);
    ReconcileOfOne(SubscribeOf(p), db, interval, false);
    assert UnreadableAt(Replay([SubscribeOf(p)], interval), db, KeyOf(p));
  }

  /** The record that a lookup through the first three parts of a key finds. */
  function PartsRecord(k: string): Subscription {
    Subscription(Part(k, 0), Part(k, 1), Part(k, 2), Big(1), 0, 0, None)
  }

  /** A delete hits somebody else's record: gone in the writing run, an orphan in the dry run. */
  lemma ColonShowsInDryRun(p: Triple, interval: int)
    requires !TripleColonFree(p.0, p.1, p.2)
    ensures var db := Single(Rejoin(KeyOf(p)), PartsRecord(KeyOf(p)));
            OwnKeys(db) && !ReportsTheSame([CancelOf(p)], db, interval)
  {
    var k, e := KeyOf(p), CancelOf(p);
    var db, x := Single(Rejoin(k), PartsRecord(k)), WantsOne(k, None);
    LooksElsewhere(p);
    ReconcileOfOne(e, db, interval, true);
    ReconcileOfOne(e, db, interval, false);
    assert OM.Drop(db, Rejoin(k)) == OM.Map([], map[]);
    assert Orphans(db, db.keys, x) != [];
  }

  // ---------------------------------------------------------------------------
  // Colon-free names are the exact condition
  // ---------------------------------------------------------------------------

  lemma SomeColon(parties: set<Triple>) returns (p: Triple)
    requires !ColonFreeNames(parties)
    ensures p in parties && !TripleColonFree(p.0, p.1, p.2)
    ensures RowsOver([SubscribeOf(p)], parties) && RowsOver([CancelOf(p)], parties)
  {
    p :| p in parties && !TripleColonFree(p.0, p.1, p.2);
    assert p == (p.0, p.1, p.2);
  }

  /** Colon-free names are exactly what the loaded database needs to be in sync. */
  lemma InSyncIffColonFree(parties: set<Triple>, interval: int)
    ensures AlwaysInSync(parties, interval) <==> ColonFreeNames(parties)
  {
    if ColonFreeNames(parties) {
      forall rows | RowsOver(rows, parties)
        ensures OM.Valid(Load(rows, interval))
        ensures Reconcile(rows, Load(rows, interval), interval, false).1 == Report([], ReplayErrors(rows, interval))
      {
        OverColonFree(rows, parties);
        LoadedDatabaseIsInSync(rows, interval);
      }
    } else {
      var p := SomeColon(parties);
      ColonCausesRepair(p, interval);
    }
  }

  lemma RepairsIffColonFree(parties: set<Triple>, interval: int)
    ensures AlwaysRepairs(parties, interval) <==> ColonFreeNames(parties)
  {
    if ColonFreeNames(parties) {
      forall events, db: DB, k |
        RowsOver(events, parties) && OM.Valid(db) && Reconcile(events, db, interval, false).1.Report?
        ensures IsRepaired(events, db, interval, k)
      {
        OverColonFree(events, parties);
        ReconcileRepairs(events, db, interval, k);
      }
    } else {
      var p := SomeColon(parties);
      ColonKeepsCancelled(p, interval);
      assert !IsRepaired([CancelOf(p)], Single(KeyOf(p), RecordOf(p, interval)), interval, KeyOf(p));
    }
  }

  lemma IdempotentIffColonFree(parties: set<Triple>, interval: int)
    ensures AlwaysIdempotent(parties, interval) <==> ColonFreeNames(parties)
  {
    if ColonFreeNames(parties) {
      forall events, db: DB |
        RowsOver(events, parties) && OM.Valid(db) && Reconcile(events, db, interval, false).1.Report?
        ensures IsIdempotent(events, db, interval)
      {
        OverColonFree(events, parties);
        ReconcileIsIdempotent(events, db, interval);
      }
    } else {
      var p := SomeColon(parties);
      ColonInsertsAgain(p, interval);
      assert !IsIdempotent([SubscribeOf(p)], OM.Map([], map[]), interval);
    }
  }

  lemma ThrowsIffColonFree(parties: set<Triple>, interval: int)
    ensures AlwaysThrowsAsStated(parties, interval) <==> ColonFreeNames(parties)
  {
    if ColonFreeNames(parties) {
      forall events, db: DB | RowsOver(events, parties) && OM.Valid(db)
        ensures ThrowsAsStated(events, db, interval)
      {
        OverColonFree(events, parties);
        ReconcileThrowsIff(events, db, interval);
      }
    } else {
      var p := SomeColon(parties);
      ColonHidesUnreadable(p, interval);
      assert !ThrowsAsStated([SubscribeOf(p)], Single(KeyOf(p), RecordOf(p, interval).(amount := Text("x", None))),
                             interval);
    }
  }

  lemma DryRunIffColonFree(parties: set<Triple>, interval: int)
    ensures AlwaysReportsTheSame(parties, interval) <==> ColonFreeNames(parties)
  {
    if ColonFreeNames(parties) {
      forall events, db: DB | RowsOver(events, parties) && OwnKeys(db)
        ensures ReportsTheSame(events, db, interval)
      {
        OverColonFree(events, parties);
        DryRunReportsTheSame(events, db, interval);
      }
    } else {
      var p := SomeColon(parties);
      ColonShowsInDryRun(p, interval);
      assert !ReportsTheSame([CancelOf(p)], Single(Rejoin(KeyOf(p)), PartsRecord(KeyOf(p))), interval);
    }
  }

  // ---------------------------------------------------------------------------
  // Dry-run pages need less: no two keys with the same first three parts
  // ---------------------------------------------------------------------------

  ghost predicate DistinctLookups(parties: set<Triple>) {
    forall p, q :: p in parties && q in parties && KeyOf(p) != KeyOf(q) ==> Rejoin(KeyOf(p)) != Rejoin(KeyOf(q))
  }

  ghost predicate IsPaged(events: seq<ChainEvent>, db: DB, limits: nat -> Option<int>) {
    OM.Valid(db) && Reconcile(events, db, DryRun.DEFAULT_INTERVAL, false).1.Report? &&
    var dry := Reconcile(events, db, DryRun.DEFAULT_INTERVAL, true).1;
    dry.Report? &&
    DryRun.Follow(dry.repairs, None, limits, 0) == Reconcile(events, db, DryRun.DEFAULT_INTERVAL, false).1.repairs
  }

  /** Following the pages of a dry run always lists what the writing run repairs. */
  ghost predicate AlwaysPaged(parties: set<Triple>) {
    forall events, db: DB, limits |
      RowsOver(events, parties) && OwnKeys(db) && Reconcile(events, db, DryRun.DEFAULT_INTERVAL, false).1.Report? ::
      IsPaged(events, db, limits)
  }

  lemma RejoinTwice(key: string)
    ensures Rejoin(Rejoin(key)) == Rejoin(key)
  {
    RejoinIsIdentity(Part(key, 0), Part(key, 1), Part(key, 2));
  }

  ghost predicate IsKeyOver(k: string, parties: set<Triple>) {
    exists p :: p in parties && KeyOf(p) == k
  }

  lemma {:induction false} ReplayKeysOver(events: seq<ChainEvent>, parties: set<Triple>, interval: int)
    requires RowsOver(events, parties)
    ensures forall k :: k in Replay(events, interval).vals ==> IsKeyOver(k, parties)
  {
    if events != [] {
      var e := events[|events| - 1];
      ReplayKeysOver(events[..|events| - 1], parties, interval);
      var p := (e.subscriber, e.merchant, e.token);
      assert p in parties && KeyOf(p) == EventKey(e);
    }
  }

  lemma NoWriteWhereLooked(parties: set<Triple>, k: string, l: string)
    requires DistinctLookups(parties) && IsKeyOver(k, parties) && IsKeyOver(l, parties) && k != l
    ensures !MayWrite(k, Rejoin(l))
  {
    var p :| p in parties && KeyOf(p) == k;
    var q :| q in parties && KeyOf(q) == l;
    RejoinTwice(l);
  }

  lemma DistinctLookupsApart(events: seq<ChainEvent>, parties: set<Triple>, interval: int)
    requires RowsOver(events, parties) && DistinctLookups(parties)
    ensures LookupsApart(Replay(events, interval))
  {
    var x := Replay(events, interval);
    ReplayKeyed(events, interval);
    ReplayKeysOver(events, parties, interval);
    forall n, i | 0 <= i < n < |x.keys|
      ensures !MayWrite(x.keys[i], Rejoin(x.keys[n]))
    {
      assert x.keys[i] in x.vals && x.keys[n] in x.vals;
      NoWriteWhereLooked(parties, x.keys[i], x.keys[n]);
    }
  }

  /** A replay that wants neither of two keys. */
  function WantsNeither(k: string, l: string): Expected { OM.Map([k, l], map[k := None, l := None]) }

  lemma ReplayOfTwo(p: Triple, q: Triple, interval: int)
    requires KeyOf(p) != KeyOf(q)
    ensures Replay([CancelOf(p), CancelOf(q)], interval) == WantsNeither(KeyOf(p), KeyOf(q))
  {
    var events := [CancelOf(p), CancelOf(q)];
    assert events[..1] == [CancelOf(p)];
    ReplayOfOne(CancelOf(p), interval);
    assert [KeyOf(p)] + [KeyOf(q)] == [KeyOf(p), KeyOf(q)];
  }

  lemma DiffOfTwo(k: string, l: string, db: DB, readOnly: bool)
    requires k != l
    ensures Diff(WantsNeither(k, l), db, readOnly, 2) ==
            Visit(Visit(Progress(db, [], false), k, None, readOnly), l, None, readOnly)
  {
    var x := WantsNeither(k, l);
    assert Diff(x, db, readOnly, 0) == Progress(db, [], false);
    assert Diff(x, db, readOnly, 1) == Visit(Progress(db, [], false), k, None, readOnly);
  }

  /** Two cancelled keys find the same record: the writing run deletes it once, the dry run twice. */
  lemma SharedLookupRepairsTwice(p: Triple, q: Triple, limits: nat -> Option<int>)
    requires KeyOf(p) != KeyOf(q) && Rejoin(KeyOf(p)) == Rejoin(KeyOf(q))
    ensures var events, db := [CancelOf(p), CancelOf(q)], Single(Rejoin(KeyOf(p)), PartsRecord(KeyOf(p)));
            && OwnKeys(db) && Reconcile(events, db, DryRun.DEFAULT_INTERVAL, false).1.Report?
            && !IsPaged(events, db, limits)
  {
    var k, l := KeyOf(p), KeyOf(q);
    var events, db := [CancelOf(p), CancelOf(q)], Single(Rejoin(k), PartsRecord(k));
    ReplayOfTwo(p, q, DryRun.DEFAULT_INTERVAL);
    DiffOfTwo(k, l, db, true);
    DiffOfTwo(k, l, db, false);
    assert |Diff(WantsNeither(k, l), db, true, 2).repairs| == 2;
    assert |Diff(WantsNeither(k, l), db, false, 2).repairs| == 1;
    DryRun.FollowAll(Diff(WantsNeither(k, l), db, true, 2).repairs, limits);
  }

  /** The pages list what the writing run repairs, for every log and database, exactly when no two
      keys of the parties share their first three parts. */
  lemma PagedIffDistinctLookups(parties: set<Triple>)
    ensures AlwaysPaged(parties) <==> DistinctLookups(parties)
  {
    if DistinctLookups(parties) {
      forall events, db: DB, limits |
        RowsOver(events, parties) && OwnKeys(db) && Reconcile(events, db, DryRun.DEFAULT_INTERVAL, false).1.Report?
        ensures IsPaged(events, db, limits)
      {
        DistinctLookupsApart(events, parties, DryRun.DEFAULT_INTERVAL);
        DryRun.PagesListEveryRepair(events, db, limits);
      }
    } else {
      var p, q :| p in parties && q in parties && KeyOf(p) != KeyOf(q) && Rejoin(KeyOf(p)) == Rejoin(KeyOf(q));
      var limits: nat -> Option<int> := _ => None;
      SharedLookupRepairsTwice(p, q, limits);
      assert p == (p.0, p.1, p.2) && q == (q.0, q.1, q.2);
      assert RowsOver([CancelOf(p), CancelOf(q)], parties);
      assert !IsPaged([CancelOf(p), CancelOf(q)], Single(Rejoin(KeyOf(p)), PartsRecord(KeyOf(p))), limits);
    }
  }

  /** Colon-free names are always far enough apart. */
  lemma ColonFreeIsDistinct(parties: set<Triple>)
    requires ColonFreeNames(parties)
    ensures DistinctLookups(parties)
  {
    forall p | p in parties
      ensures Rejoin(KeyOf(p)) == KeyOf(p)
    {
      RejoinIsIdentity(p.0, p.1, p.2);
    }
  }
}
