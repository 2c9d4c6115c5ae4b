/** Dry-run paging (backend/src/services/reconciler.ts): a page of the repairs that a
    reconcile would make, and an opaque cursor to the next page. */
module DryRun {
  import opened Wrappers
  import opened Decimal
  import B = Base64Url
  import OM = OrderedMap
  import R = Reconciler

  const DEFAULT_INTERVAL := 86_400

  datatype Page =
    | Page(repairs: seq<R.Repair>, errors: seq<R.Error>, total: nat, nextCursor: Option<string>)
    | PageThrew

  /** The page size: 50 unless asked otherwise, kept between 1 and 500. */
  function Clamp(limit: Option<int>): (n: nat)
    ensures 1 <= n <= 500
  {
    var l := if limit.Some? then limit.value else 50;
    if l < 1 then 1 else if l > 500 then 500 else l
  }

  function EncodeCursor(offset: nat): string {
    B.Encode(B.TextBytes(Digits(offset)))
  }

  function DecodeCursor(cursor: string): nat {
    match ParseInt(B.BytesText(B.Decode(cursor)))
    case Some(n) => if n >= 0 then n else 0
    case None => 0
  }

  function Offset(cursor: Option<string>): nat {
    if cursor.Some? && cursor.value != "" then DecodeCursor(cursor.value) else 0
  }

  /** Every cursor handed out decodes to the offset it was made from. */
  lemma CursorRoundTrip(offset: nat)
    ensures EncodeCursor(offset) != "" && DecodeCursor(EncodeCursor(offset)) == offset
  {
    var text := Digits(offset);
    B.DecodeInvertsEncode(B.TextBytes(text));
    B.TextRoundTrip(text);
    ParseIntOfDigits(offset);
  }

  /** A cursor that does not decode to a number, or to a negative one, is the start. */
  lemma BadCursorIsStart(cursor: string)
    ensures var n := ParseInt(B.BytesText(B.Decode(cursor)));
            n.None? || n.value < 0 ==> DecodeCursor(cursor) == 0
  {
  }

  /** The elements from `from` up to `to`, as far as there are any. */
  function Slice<T>(xs: seq<T>, from: nat, to: nat): seq<T>
    requires from <= to
  {
    xs[(if from < |xs| then from else |xs|)..(if to < |xs| then to else |xs|)]
  }

  function PageAt(repairs: seq<R.Repair>, errors: seq<R.Error>, offset: nat, size: nat): Page {
    var next := offset + size;
    Page(Slice(repairs, offset, next), errors, |repairs|, if next < |repairs| then Some(EncodeCursor(next)) else None)
  }

  function PageOf(repairs: seq<R.Repair>, errors: seq<R.Error>, limit: Option<int>, cursor: Option<string>): Page {
    PageAt(repairs, errors, Offset(cursor), Clamp(limit))
  }

  /** The page size that is asked for: 50 if nothing is, and never below 1 or above 500. */
  lemma ClampReading(limit: Option<int>)
    ensures limit.None? ==> Clamp(limit) == 50
    ensures limit.Some? && 1 <= limit.value <= 500 ==> Clamp(limit) == limit.value
    ensures limit.Some? && limit.value < 1 ==> Clamp(limit) == 1
    ensures limit.Some? && limit.value > 500 ==> Clamp(limit) == 500
  {
  }

  lemma SliceReading<T>(xs: seq<T>, offset: nat, size: nat)
    ensures var s := Slice(xs, offset, offset + size);
            && |s| == (if |xs| <= offset then 0 else if |xs| - offset < size then |xs| - offset else size)
            && forall i :: 0 <= i < |s| ==> s[i] == xs[offset + i]
  {
  }

  /** A page holds the repairs from its offset on, as many as asked for or are left; all errors, the
      total, and a cursor that decodes to the first repair it does not list. */
  lemma PageReading(repairs: seq<R.Repair>, errors: seq<R.Error>, offset: nat, size: nat)
    ensures var page := PageAt(repairs, errors, offset, size);
            && page.errors == errors && page.total == |repairs|
            && |page.repairs| == (if |repairs| <= offset then 0
                                  else if |repairs| - offset < size then |repairs| - offset else size)
            && (forall i :: 0 <= i < |page.repairs| ==> page.repairs[i] == repairs[offset + i])
            && (page.nextCursor.Some? <==> offset + size < |repairs|)
            && (page.nextCursor.Some? ==> DecodeCursor(page.nextCursor.value) == offset + size)
  {
    SliceReading(repairs, offset, size);
    CursorRoundTrip(offset + size);
  }

  ghost function PageFor(outcome: R.Outcome, limit: Option<int>, cursor: Option<string>): Page {
    match outcome
    case Report(repairs, errors) => PageOf(repairs, errors, limit, cursor)
    case Threw => PageThrew
  }

  /** The slicing half of dryRun. */
  method CutPage(result: R.Outcome, limit: Option<int>, cursor: Option<string>) returns (page: Page)
    ensures page == PageFor(result, limit, cursor)
  {
    if result.Threw? {
      return PageThrew;
    }
    var size := Clamp(limit);
    var offset := if cursor.Some? && cursor.value != "" then DecodeCursor(cursor.value) else 0;
    var total := |result.repairs|;
    var next := offset + size;
    page := Page(Slice(result.repairs, offset, next), result.errors, total,
                 if next < total then Some(EncodeCursor(next)) else None);
  }

  /** dryRun: it takes the database as a value and gives none back. */
  method DryRunPage(events: seq<R.ChainEvent>, db: OM.Map<R.Subscription>, limit: Option<int>, cursor: Option<string>)
    returns (page: Page)
    requires OM.Valid(db)
    ensures page == PageFor(R.Reconcile(events, db, 86_400, true).1, limit, cursor)
  {
    var _, result := R.ReconcileDB(events, db, DEFAULT_INTERVAL, true);
    page := CutPage(result, limit, cursor);
  }

  /** The repairs met by following nextCursor from `cursor`, asking for `limits(i)` on page i. */
  function Follow(repairs: seq<R.Repair>, cursor: Option<string>, limits: nat -> Option<int>, i: nat): seq<R.Repair>
    decreases |repairs| - Offset(cursor)
  {
    var page := PageOf(repairs, [], limits(i), cursor);
    if page.nextCursor.None? then page.repairs
    else
      CursorRoundTrip(Offset(cursor) + Clamp(limits(i)));
      page.repairs + Follow(repairs, page.nextCursor, limits, i + 1)
  }

  function From<T>(xs: seq<T>, offset: nat): seq<T> { if offset < |xs| then xs[offset..] else [] }

  lemma SliceFrom<T>(xs: seq<T>, offset: nat, next: nat)
    requires offset <= next
    ensures next < |xs| ==> Slice(xs, offset, next) + From(xs, next) == From(xs, offset)
    ensures next >= |xs| ==> Slice(xs, offset, next) == From(xs, offset)
  {
  }

  lemma {:induction false} FollowFrom(
    repairs: seq<R.Repair>, cursor: Option<string>, limits: nat -> Option<int>, i: nat)
    ensures Follow(repairs, cursor, limits, i) == From(repairs, Offset(cursor))
    decreases |repairs| - Offset(cursor)
  {
    var page := PageOf(repairs, [], limits(i), cursor);
    var next := Offset(cursor) + Clamp(limits(i));
    SliceFrom(repairs, Offset(cursor), next);
    if next < |repairs| {
      CursorRoundTrip(next);
      FollowFrom(repairs, page.nextCursor, limits, i + 1);
    }
  }

  /** Following nextCursor from the start, with any limits, ends and lists the given repairs in order. */
  lemma FollowAll(repairs: seq<R.Repair>, limits: nat -> Option<int>)
    ensures Follow(repairs, None, limits, 0) == repairs
  {
    FollowFrom(repairs, None, limits, 0);
    assert repairs[0..] == repairs;
  }

  /** If the diff never writes where it looks later, as for colon-free names, following nextCursor
      lists exactly the repairs that the writing reconcile makes. */
  lemma PagesListEveryRepair(events: seq<R.ChainEvent>, db: OM.Map<R.Subscription>, limits: nat -> Option<int>)
    requires R.LookupsApart(R.Replay(events, 86_400)) && OM.Valid(db)
    requires R.Reconcile(events, db, 86_400, false).1.Report?
    ensures R.Reconcile(events, db, 86_400, true).1.Report?
    ensures Follow(R.Reconcile(events, db, 86_400, true).1.repairs, None, limits, 0) ==
            R.Reconcile(events, db, 86_400, false).1.repairs
  {
    var x := R.Replay(events, 86_400);
    R.DiffReports(x, db, |x.keys|);
    FollowAll(R.Reconcile(events, db, 86_400, true).1.repairs, limits);
  }
}
