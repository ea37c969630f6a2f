/** Keyset pagination of completed reviews: newest first by (reviewed_at, id), limit + 1 rows below a cursor. */
module ReviewPages {
  import opened Results
  import opened ModerationTypes

  const CURSOR_VERSION := 1
  const DEFAULT_LIMIT := 50
  const MAX_LIMIT := 100
  const ZERO_TIME := 0

  datatype StatusFilter = PendingQueue | Completed | Only(status: ReviewStatus)

  datatype Cursor = Cursor(version: int, status: StatusFilter, reviewedAt: int, id: nat)

  /** Cursor text: what base64 and JSON make of a cursor, or anything else a caller may send. */
  datatype Token = Encoded(cursor: Cursor) | Garbage

  datatype Filter = Filter(status: StatusFilter, limit: nat, cursor: Option<Cursor>)

  datatype Page = Page(items: seq<ReviewCase>, next: Option<Cursor>)

  datatype RequestError = NotPaged | BadLimit | BadCursor | Unencodable

  // ---------- Request validation and the cursor codec ----------

  predicate CursorUsable(c: Cursor) {
    c.version == CURSOR_VERSION && c.id != 0 && c.reviewedAt != ZERO_TIME
  }

  function EncodeCursor(c: Cursor): Result<Token, RequestError> {
    if CursorUsable(c) then Ok(Encoded(c)) else Err(Unencodable)
  }

  function DecodeCursor(token: Token, expected: StatusFilter): Result<Cursor, RequestError> {
    if token.Encoded? && CursorUsable(token.cursor) && token.cursor.status == expected then Ok(token.cursor)
    else Err(BadCursor)
  }

  /** limit and cursor are absent when the caller left them blank. */
  function NormalizeFilter(status: StatusFilter, limit: Option<int>, token: Option<Token>): Result<Filter, RequestError> {
    if status == PendingQueue then
      if limit.Some? || token.Some? then Err(NotPaged) else Ok(Filter(status, 0, None))
    else if limit.Some? && (limit.value <= 0 || limit.value > MAX_LIMIT) then Err(BadLimit)
    else
      var size := if limit.Some? then limit.value else DEFAULT_LIMIT;
      if token.None? then Ok(Filter(status, size, None))
      else
        match DecodeCursor(token.value, status)
        case Err(e) => Err(e)
        case Ok(c) => Ok(Filter(status, size, Some(c)))
  }

  /** What becomes of a list request: the queue takes neither limit nor cursor; a history takes a limit from 1 to 100,
      50 when there is none, and a cursor only if it is whole and was minted for the same status. */
  lemma {:induction false} RequestsAreNormalized(status: StatusFilter, limit: Option<int>, token: Option<Token>)
    ensures var r := NormalizeFilter(status, limit, token);
            var badLimit := limit.Some? && !(1 <= limit.value <= 100);
            && (status == PendingQueue ==>
                  r == if limit == None && token == None then Ok(Filter(PendingQueue, 0, None)) else Err(NotPaged))
            && (status != PendingQueue && badLimit ==> r == Err(BadLimit))
            && (status != PendingQueue && !badLimit && token == None ==>
                  r == Ok(Filter(status, if limit == None then 50 else limit.value, None)))
            && (status != PendingQueue && !badLimit && token.Some? ==>
                  if token.value.Encoded? && token.value.cursor.version == 1 && token.value.cursor.status == status
                     && token.value.cursor.id != 0 && token.value.cursor.reviewedAt != ZERO_TIME
                  then r == Ok(Filter(status, if limit == None then 50 else limit.value, Some(token.value.cursor)))
                  else r == Err(BadCursor))
  {
  }

  /** A cursor is minted exactly when it can be read back. */
  lemma {:induction false} CursorsMintedExactlyWhenWhole(c: Cursor)
    ensures EncodeCursor(c).Ok? <==> c.version == 1 && c.id != 0 && c.reviewedAt != ZERO_TIME
    ensures EncodeCursor(c).Ok? ==> DecodeCursor(EncodeCursor(c).value, c.status) == Ok(c)
  {
  }

  // ---------- One page ----------

  predicate Matches(c: ReviewCase, status: StatusFilter) {
    && c.reviewedAt.Some?
    && match status
       case PendingQueue => false
       case Completed => c.status != Pending
       case Only(s) => c.status == s
  }

  /** The sort key, newest first. */
  predicate Below(c: ReviewCase, reviewedAt: int, id: nat)
    requires c.reviewedAt.Some?
  {
    c.reviewedAt.value < reviewedAt || (c.reviewedAt.value == reviewedAt && c.id < id)
  }

  predicate PastCursor(c: ReviewCase, cursor: Option<Cursor>)
    requires c.reviewedAt.Some?
  {
    cursor.Some? ==> Below(c, cursor.value.reviewedAt, cursor.value.id)
  }

  predicate Eligible(c: ReviewCase, filter: Filter) {
    Matches(c, filter.status) && PastCursor(c, filter.cursor)
  }

  predicate Descends(a: ReviewCase, b: ReviewCase) {
    a.reviewedAt.Some? && b.reviewedAt.Some? && Below(b, a.reviewedAt.value, a.id)
  }

  ghost predicate Descending(rows: seq<ReviewCase>) {
    forall i, j :: 0 <= i < j < |rows| ==> Descends(rows[i], rows[j])
  }

  /** rows are the n newest eligible cases of the table, or all of them. */
  ghost predicate IsNewest(cases: seq<ReviewCase>, filter: Filter, n: nat, rows: seq<ReviewCase>) {
    && |rows| <= n
    && Descending(rows)
    && (forall i :: 0 <= i < |rows| ==> rows[i] in cases && Eligible(rows[i], filter))
    && (forall c :: c in cases && Eligible(c, filter) && c !in rows ==>
          |rows| == n && forall i :: 0 <= i < |rows| ==> Descends(rows[i], c))
  }

  /** Trims the extra row and mints the cursor of the last row kept. */
  function Trimmed(filter: Filter, rows: seq<ReviewCase>): Page
    requires filter.limit > 0 && forall i :: 0 <= i < |rows| ==> rows[i].reviewedAt.Some?
  {
    if |rows| > filter.limit then
      var last := rows[filter.limit - 1];
      Page(rows[..filter.limit], Some(Cursor(CURSOR_VERSION, filter.status, last.reviewedAt.value, last.id)))
    else Page(rows, None)
  }

  /** The page the server answers with for a table. */
  ghost predicate IsPage(cases: seq<ReviewCase>, filter: Filter, page: Page) {
    filter.limit > 0 && exists rows :: IsNewest(cases, filter, filter.limit + 1, rows) && page == Trimmed(filter, rows)
  }

  /** Ids are unique, counting from 1. */
  ghost predicate Numbered(cases: seq<ReviewCase>) {
    forall i :: 0 <= i < |cases| ==> cases[i].id == i + 1
  }

  /** A case has a review time exactly when it is finalized. */
  ghost predicate Timed(cases: seq<ReviewCase>) {
    forall i :: 0 <= i < |cases| ==> (cases[i].reviewedAt.Some? <==> cases[i].status != Pending)
  }

  /** The order of the pending queue: oldest first. */
  predicate Ahead(a: ReviewCase, b: ReviewCase, createdAt: nat -> int) {
    createdAt(a.id) < createdAt(b.id) || (createdAt(a.id) == createdAt(b.id) && a.id < b.id)
  }

  /** rows are exactly the pending cases, oldest first. */
  ghost predicate IsQueue(cases: seq<ReviewCase>, createdAt: nat -> int, rows: seq<ReviewCase>) {
    && (forall i, j :: 0 <= i < j < |rows| ==> Ahead(rows[i], rows[j], createdAt))
    && (forall c :: c in rows <==> c in cases && c.status == Pending)
  }

  /** rows are exactly the eligible cases, newest first. */
  ghost predicate IsWholeList(cases: seq<ReviewCase>, filter: Filter, rows: seq<ReviewCase>) {
    Descending(rows) && forall c :: c in rows <==> c in cases && Eligible(c, filter)
  }

  datatype ListError = MissingReviewedAt

  class ReviewCaseReader {
    var cases: seq<ReviewCase>
    /** The created_at column, by case id. */
    const createdAt: nat -> int

    constructor (cases: seq<ReviewCase>, createdAt: nat -> int)
      ensures this.cases == cases && this.createdAt == createdAt
    {
      this.cases := cases;
      this.createdAt := createdAt;
    }

    /** The oldest pending case behind a row, if any. */
    method NextPending(after: Option<ReviewCase>) returns (best: Option<ReviewCase>)
      requires Numbered(cases)
      ensures best.Some? ==> best.value in cases && best.value.status == Pending
                             && (after.Some? ==> Ahead(after.value, best.value, createdAt))
      ensures forall c :: c in cases && c.status == Pending && (after.Some? ==> Ahead(after.value, c, createdAt)) ==>
                best.Some? && (c == best.value || Ahead(best.value, c, createdAt))
    {
      best := None;
      var i := 0;
      while i < |cases|
        invariant 0 <= i <= |cases|
        invariant best.Some? ==> best.value in cases && best.value.status == Pending
                                 && (after.Some? ==> Ahead(after.value, best.value, createdAt))
        invariant forall k :: 0 <= k < i && cases[k].status == Pending && (after.Some? ==> Ahead(after.value, cases[k], createdAt))
                    ==> best.Some? && (cases[k] == best.value || Ahead(best.value, cases[k], createdAt))
      {
        var c := cases[i];
        if c.status == Pending && (after.Some? ==> Ahead(after.value, c, createdAt)) {
          if best.None? || Ahead(c, best.value, createdAt) {
            best := Some(c);
          }
        }
        i := i + 1;
      }
    }

    method Pendings() returns (rows: seq<ReviewCase>)
      requires Numbered(cases)
      ensures IsQueue(cases, createdAt, rows)
      ensures forall i, j :: 0 <= i < j < |rows| ==>
                var a, b := rows[i].id, rows[j].id; createdAt(a) < createdAt(b) || (createdAt(a) == createdAt(b) && a < b)
    {
      rows := [];
      while true
        invariant forall i, j :: 0 <= i < j < |rows| ==> Ahead(rows[i], rows[j], createdAt)
        invariant forall i :: 0 <= i < |rows| ==> rows[i] in cases && rows[i].status == Pending
        invariant forall c :: c in cases && c.status == Pending && c !in rows ==>
                    forall i :: 0 <= i < |rows| ==> Ahead(rows[i], c, createdAt)
        decreases |cases| - |rows|
      {
        var best := NextPending(if rows == [] then None else Some(rows[|rows| - 1]));
        if best.None? {
          return;
        }
        rows := rows + [best.value];
        DistinctRowsFit(cases, rows);
      }
    }

    /** The newest eligible case below a row, if any. */
    method NextBelow(filter: Filter, above: Option<ReviewCase>) returns (best: Option<ReviewCase>)
      requires above.Some? ==> above.value.reviewedAt.Some?
      requires Numbered(cases)
      ensures best.Some? ==> best.value in cases && Eligible(best.value, filter)
                             && (above.Some? ==> Descends(above.value, best.value))
      ensures forall c :: c in cases && Eligible(c, filter) && (above.Some? ==> Descends(above.value, c)) ==>
                best.Some? && (c == best.value || Descends(best.value, c))
    {
      best := None;
      var i := 0;
      while i < |cases|
        invariant 0 <= i <= |cases|
        invariant best.Some? ==> best.value in cases && Eligible(best.value, filter)
                                 && (above.Some? ==> Descends(above.value, best.value))
        invariant forall k :: 0 <= k < i && Eligible(cases[k], filter) && (above.Some? ==> Descends(above.value, cases[k]))
                    ==> best.Some? && (cases[k] == best.value || Descends(best.value, cases[k]))
      {
        var c := cases[i];
        if Eligible(c, filter) && (above.Some? ==> Descends(above.value, c)) {
          if best.None? || Descends(c, best.value) {
            best := Some(c);
          }
        }
        i := i + 1;
      }
    }

    method Newest(filter: Filter, n: nat) returns (rows: seq<ReviewCase>)
      requires Numbered(cases)
      ensures IsNewest(cases, filter, n, rows)
    {
      rows := [];
      while |rows| < n
        invariant |rows| <= n && Descending(rows)
        invariant forall i :: 0 <= i < |rows| ==> rows[i] in cases && Eligible(rows[i], filter)
        invariant forall c :: c in cases && Eligible(c, filter) && c !in rows ==>
                    forall i :: 0 <= i < |rows| ==> Descends(rows[i], c)
        decreases n - |rows|
      {
        var best := NextBelow(filter, if rows == [] then None else Some(rows[|rows| - 1]));
        if best.None? {
          return;
        }
        rows := rows + [best.value];
      }
    }

    /** Without a limit, the pending queue or all completed reviews; with one, a page of completed reviews. A limit on
        the queue would only go unnoticed while the queue is short. */
    method ListReviewCases(filter: Filter) returns (r: Result<Page, ListError>)
      requires Numbered(cases)
      ensures filter.status == PendingQueue && Timed(cases) ==>
                exists rows :: IsQueue(cases, createdAt, rows)
                  && r == if 0 < filter.limit < |rows| then Err(MissingReviewedAt) else Ok(Page(rows, None))
      ensures filter.status != PendingQueue && filter.limit > 0 ==> r.Ok? && IsPage(cases, filter, r.value)
      ensures filter.status != PendingQueue && filter.limit == 0 ==>
                exists rows :: IsWholeList(cases, filter, rows) && r == Ok(Page(rows, None))
    {
      var rows: seq<ReviewCase>;
      if filter.status == PendingQueue {
        rows := Pendings();
      } else if filter.limit > 0 {
        rows := Newest(filter, filter.limit + 1);
      } else {
        rows := Newest(filter, |cases| + 1);
        DistinctRowsFit(cases, rows);
        assert IsWholeList(cases, filter, rows);
      }
      if filter.limit > 0 && |rows| > filter.limit {
        var kept := rows[..filter.limit];
        var last := kept[|kept| - 1];
        assert last in rows;
        if last.reviewedAt.None? {
          return Err(MissingReviewedAt);
        }
        r := Ok(Page(kept, Some(Cursor(CURSOR_VERSION, filter.status, last.reviewedAt.value, last.id))));
      } else {
        r := Ok(Page(rows, None));
      }
      assert filter.status != PendingQueue && filter.limit > 0 ==> r.Ok? && r.value == Trimmed(filter, rows);
    }
  }

  /** Rows of the table that differ pairwise are no more than the table holds. */
  lemma {:induction false} DistinctRowsFit(cases: seq<ReviewCase>, rows: seq<ReviewCase>)
    requires forall i :: 0 <= i < |rows| ==> rows[i] in cases
    requires forall i, j :: 0 <= i < j < |rows| ==> rows[i] != rows[j]
    ensures |rows| <= |cases|
  {
    MembersFit(cases);
    DistinctRowsIn(rows, Members(cases));
  }

  function Members(cases: seq<ReviewCase>): set<ReviewCase> {
    set c | c in cases
  }

  lemma {:induction false} MembersFit(cases: seq<ReviewCase>)
    ensures |Members(cases)| <= |cases|
  {
    if cases != [] {
      var front, last := cases[..|cases| - 1], cases[|cases| - 1];
      MembersFit(front);
      assert Members(cases) == Members(front) + {last};
    }
  }

  lemma {:induction false} DistinctRowsIn(rows: seq<ReviewCase>, members: set<ReviewCase>)
    requires forall i :: 0 <= i < |rows| ==> rows[i] in members
    requires forall i, j :: 0 <= i < j < |rows| ==> rows[i] != rows[j]
    ensures |rows| <= |members|
  {
    if rows != [] {
      DistinctRowsIn(rows[..|rows| - 1], members - {rows[|rows| - 1]});
    }
  }

  lemma RankedBelow(cases: seq<ReviewCase>, filter: Filter, n: nat, a: seq<ReviewCase>, b: seq<ReviewCase>, k: nat)
    requires IsNewest(cases, filter, n, a) && IsNewest(cases, filter, n, b)
    requires k < |a| && k <= |b| && a[..k] == b[..k]
    ensures k < |b| && (a[k] == b[k] || Descends(b[k], a[k]))
  {
    forall i | 0 <= i < k
      ensures b[i] != a[k]
    {
      assert b[i] == b[..k][i] == a[..k][i] == a[i];
      assert Descends(a[i], a[k]);
    }
    if a[k] in b {
      var j :| 0 <= j < |b| && b[j] == a[k];
    }
  }

  lemma {:induction false} NewestAgreeTo(
    cases: seq<ReviewCase>, filter: Filter, n: nat, a: seq<ReviewCase>, b: seq<ReviewCase>, k: nat)
    requires IsNewest(cases, filter, n, a) && IsNewest(cases, filter, n, b) && k <= |a|
    ensures k <= |b| && a[..k] == b[..k]
  {
    if k > 0 {
      NewestAgreeTo(cases, filter, n, a, b, k - 1);
      RankedBelow(cases, filter, n, a, b, k - 1);
      RankedBelow(cases, filter, n, b, a, k - 1);
      assert a[..k] == a[..k - 1] + [a[k - 1]] && b[..k] == b[..k - 1] + [b[k - 1]];
    }
  }

  lemma NewestIsUnique(cases: seq<ReviewCase>, filter: Filter, n: nat, a: seq<ReviewCase>, b: seq<ReviewCase>)
    requires IsNewest(cases, filter, n, a) && IsNewest(cases, filter, n, b)
    ensures a == b
  {
    NewestAgreeTo(cases, filter, n, a, b, |a|);
    NewestAgreeTo(cases, filter, n, b, a, |b|);
  }

  /** A table and a request determine the page: the order leaves no choice. */
  lemma {:induction false} PageIsUnique(cases: seq<ReviewCase>, filter: Filter, p: Page, q: Page)
    requires IsPage(cases, filter, p) && IsPage(cases, filter, q)
    ensures p == q
  {
    var n := filter.limit + 1;
    var a :| IsNewest(cases, filter, n, a) && p == Trimmed(filter, a);
    var b :| IsNewest(cases, filter, n, b) && q == Trimmed(filter, b);
    NewestIsUnique(cases, filter, n, a, b);
  }

  // ---------- Walking all pages while reviewers keep finalizing ----------

  /** One fetch: the table when the server read it, the request, and the answer. */
  datatype Fetch = Fetch(cases: seq<ReviewCase>, filter: Filter, page: Page)

  /** Between reads, cases are added and pending ones finalized with any time; finalized ones never change. */
  ghost predicate Evolves(before: seq<ReviewCase>, after: seq<ReviewCase>) {
    |before| <= |after| && forall i :: 0 <= i < |before| ==> RowEvolves(before[i], after[i])
  }

  predicate RowEvolves(before: ReviewCase, after: ReviewCase) {
    after.id == before.id && (before.status != Pending ==> after == before)
  }

  predicate FollowsUp(previous: Fetch, fetch: Fetch) {
    previous.page.next.Some? && fetch.filter.cursor == previous.page.next
  }

  ghost predicate GoodFetch(fetch: Fetch, status: StatusFilter) {
    && Numbered(fetch.cases)
    && (forall i :: 0 <= i < |fetch.cases| ==> (fetch.cases[i].reviewedAt.Some? <==> fetch.cases[i].status != Pending))
    && fetch.filter.status == status
    && IsPage(fetch.cases, fetch.filter, fetch.page)
  }

  /** A chain of fetches: the first without a cursor, each later one with the cursor of the one before. */
  ghost predicate IsWalk(walk: seq<Fetch>, status: StatusFilter) {
    && (forall k :: 0 <= k < |walk| ==> GoodFetch(walk[k], status))
    && (walk != [] ==> walk[0].filter.cursor == None)
    && (forall k :: 0 < k < |walk| ==> FollowsUp(walk[k - 1], walk[k]))
    && (forall j, k :: 0 <= j < k < |walk| ==> Evolves(walk[j].cases, walk[k].cases))
  }

  lemma EvolvesTransitive(a: seq<ReviewCase>, b: seq<ReviewCase>, c: seq<ReviewCase>)
    requires Evolves(a, b) && Evolves(b, c)
    ensures Evolves(a, c)
  {
    forall i | 0 <= i < |a|
      ensures RowEvolves(a[i], c[i])
    {
      assert RowEvolves(a[i], b[i]) && RowEvolves(b[i], c[i]);
    }
  }

  function Listed(walk: seq<Fetch>): seq<ReviewCase> {
    if walk == [] then [] else Listed(walk[..|walk| - 1]) + walk[|walk| - 1].page.items
  }

  lemma DescendsTransitive(a: ReviewCase, b: ReviewCase, c: ReviewCase)
    requires Descends(a, b) && Descends(b, c)
    ensures Descends(a, c)
  {
  }

  predicate CursorIs(cursor: Option<Cursor>, c: ReviewCase) {
    cursor.Some? && c.reviewedAt.Some? && cursor.value.reviewedAt == c.reviewedAt.value && cursor.value.id == c.id
  }

  /** What one page guarantees: its items are past the cursor and descending, the next cursor is its last item,
      and every eligible case is listed or past the next cursor. */
  lemma {:induction false} PageFacts(fetch: Fetch, status: StatusFilter)
    requires GoodFetch(fetch, status)
    ensures Descending(fetch.page.items)
    ensures |fetch.page.items| <= fetch.filter.limit && (fetch.page.next.Some? ==> |fetch.page.items| == fetch.filter.limit)
    ensures forall i :: 0 <= i < |fetch.page.items| ==>
              fetch.page.items[i] in fetch.cases && Eligible(fetch.page.items[i], fetch.filter)
    ensures fetch.page.next.Some? ==>
              && fetch.page.items != [] && fetch.page.next.value.status == status
              && CursorIs(fetch.page.next, fetch.page.items[|fetch.page.items| - 1])
    ensures forall c :: c in fetch.cases && Eligible(c, fetch.filter) && c !in fetch.page.items ==>
              fetch.page.next.Some? && PastCursor(c, fetch.page.next)
  {
    var rows :| IsNewest(fetch.cases, fetch.filter, fetch.filter.limit + 1, rows)
                && fetch.page == Trimmed(fetch.filter, rows);
    forall c | c in fetch.cases && Eligible(c, fetch.filter) && c !in fetch.page.items
      ensures fetch.page.next.Some? && PastCursor(c, fetch.page.next)
    {
      if c in rows {
        var k :| 0 <= k < |rows| && rows[k] == c;
        assert |rows| > fetch.filter.limit ==> fetch.page.items == rows[..fetch.filter.limit];
        assert Descends(rows[fetch.filter.limit - 1], rows[k]);
      } else {
        assert Descends(rows[fetch.filter.limit - 1], c);
      }
    }
  }

  /** A page names a next one exactly when something eligible is left, which the next one will then list. */
  lemma {:induction false} NextExactlyWhenMoreIsLeft(fetch: Fetch, status: StatusFilter)
    requires GoodFetch(fetch, status)
    ensures fetch.page.next.Some? <==> exists c :: c in fetch.cases && Eligible(c, fetch.filter) && c !in fetch.page.items
  {
    PageFacts(fetch, status);
    if fetch.page.next.Some? {
      var rows :| IsNewest(fetch.cases, fetch.filter, fetch.filter.limit + 1, rows)
                  && fetch.page == Trimmed(fetch.filter, rows);
      var extra := rows[fetch.filter.limit];
      forall i | 0 <= i < fetch.filter.limit
        ensures fetch.page.items[i] != extra
      {
        assert Descends(rows[i], extra);
      }
      assert extra in fetch.cases && Eligible(extra, fetch.filter) && extra !in fetch.page.items;
    }
  }

  /** What the walk so far has covered. */
  ghost predicate Covered(walk: seq<Fetch>, status: StatusFilter) {
    var all := Listed(walk);
    && Descending(all)
    && (walk != [] && walk[|walk| - 1].page.next.Some? ==>
          all != [] && CursorIs(walk[|walk| - 1].page.next, all[|all| - 1]))
    && (walk != [] ==> forall c :: c in walk[0].cases && Matches(c, status) && c !in all ==>
          walk[|walk| - 1].page.next.Some? && PastCursor(c, walk[|walk| - 1].page.next))
  }

  lemma FinalizedStays(before: seq<ReviewCase>, after: seq<ReviewCase>, c: ReviewCase)
    requires Evolves(before, after) && c in before && c.status != Pending
    ensures c in after
  {
    var i :| 0 <= i < |before| && before[i] == c;
    assert RowEvolves(before[i], after[i]);
  }

  lemma DescendingAppend(front: seq<ReviewCase>, back: seq<ReviewCase>)
    requires Descending(front) && Descending(back) && front != []
    requires forall j :: 0 <= j < |back| ==> Descends(front[|front| - 1], back[j])
    ensures Descending(front + back)
  {
    forall i, j | 0 <= i < |front| && 0 <= j < |back|
      ensures Descends(front[i], back[j])
    {
      if i < |front| - 1 {
        DescendsTransitive(front[i], front[|front| - 1], back[j]);
      }
    }
  }

  /** One more page extends the cover. */
  lemma NextPageCovers(walk: seq<Fetch>, status: StatusFilter)
    requires IsWalk(walk, status) && |walk| > 1 && Covered(walk[..|walk| - 1], status)
    ensures Covered(walk, status)
  {
    var n := |walk| - 1;
    var front, fetch := walk[..n], walk[n];
    PageFacts(fetch, status);
    assert FollowsUp(walk[n - 1], walk[n]) && front[n - 1] == walk[n - 1];
    DescendingAppend(Listed(front), fetch.page.items);
    forall c | c in walk[0].cases && Matches(c, status) && c !in Listed(walk)
      ensures fetch.page.next.Some? && PastCursor(c, fetch.page.next)
    {
      assert c !in Listed(front);
      FinalizedStays(walk[0].cases, fetch.cases, c);
    }
  }

  lemma {:induction false} WalkCovers(walk: seq<Fetch>, status: StatusFilter)
    requires IsWalk(walk, status)
    ensures Covered(walk, status)
  {
    if |walk| == 1 {
      PageFacts(walk[0], status);
      assert Listed(walk[..0]) == [];
    } else if |walk| > 1 {
      WalkCovers(walk[..|walk| - 1], status);
      NextPageCovers(walk, status);
    }
  }

  lemma {:induction false} MatchesStay(
    before: seq<ReviewCase>, after: seq<ReviewCase>, status: StatusFilter, rows: seq<ReviewCase>)
    requires Evolves(before, after) && Timed(before)
    requires forall x :: x in rows ==> x in before && Matches(x, status)
    ensures forall x :: x in rows ==> x in after
  {
    forall x | x in rows
      ensures x in after
    {
      FinalizedStays(before, after, x);
    }
  }

  /** Everything listed is a matching case of the table as last read. */
  lemma {:induction false} ListedStaysInTable(walk: seq<Fetch>, status: StatusFilter)
    requires IsWalk(walk, status) && walk != []
    ensures forall x :: x in Listed(walk) ==> x in walk[|walk| - 1].cases && Matches(x, status)
  {
    var n := |walk| - 1;
    PageFacts(walk[n], status);
    if n > 0 {
      var front := walk[..n];
      assert front[n - 1] == walk[n - 1];
      ListedStaysInTable(front, status);
      MatchesStay(walk[n - 1].cases, walk[n].cases, status, Listed(front));
    } else {
      assert Listed(walk[..n]) == [];
    }
  }

  lemma SameIdSameRow(table: seq<ReviewCase>, x: ReviewCase, y: ReviewCase)
    requires Numbered(table) && x in table && y in table && x.id == y.id
    ensures x == y
  {
  }

  lemma ListedIdsDistinct(walk: seq<Fetch>, status: StatusFilter, i: nat, j: nat)
    requires IsWalk(walk, status) && i < j < |Listed(walk)|
    ensures Listed(walk)[i].id != Listed(walk)[j].id
  {
    var all := Listed(walk);
    assert all[i] in all && all[j] in all;
    ListedStaysInTable(walk, status);
    WalkCovers(walk, status);
    assert Descends(all[i], all[j]);
    if all[i].id == all[j].id {
      assert GoodFetch(walk[|walk| - 1], status);
      SameIdSameRow(walk[|walk| - 1].cases, all[i], all[j]);
    }
  }

  /** However reviewers finalize cases between page fetches, a finished walk lists every case that matched when it
      began exactly once, in strictly descending order, and lists only matching cases. */
  lemma {:induction false} FinishedWalkListsEachOnce(walk: seq<Fetch>, status: StatusFilter)
    requires IsWalk(walk, status) && walk != [] && walk[|walk| - 1].page.next == None
    ensures Descending(Listed(walk))
    ensures forall c :: c in walk[0].cases && Matches(c, status) ==> c in Listed(walk)
    ensures forall c :: c in Listed(walk) ==> c in walk[|walk| - 1].cases && Matches(c, status)
    ensures forall i, j :: 0 <= i < j < |Listed(walk)| ==> Listed(walk)[i].id != Listed(walk)[j].id
  {
    WalkCovers(walk, status);
    ListedStaysInTable(walk, status);
    forall i, j | 0 <= i < j < |Listed(walk)|
      ensures Listed(walk)[i].id != Listed(walk)[j].id
    {
      ListedIdsDistinct(walk, status, i, j);
    }
  }

  /** Finalized, and with the status asked for, if one was. */
  predicate IsInHistory(c: ReviewCase, status: StatusFilter) {
    c.status != Pending && (status.Only? ==> c.status == status.status)
  }

  lemma {:induction false} MatchingIsInHistory(fetch: Fetch, status: StatusFilter, c: ReviewCase)
    requires GoodFetch(fetch, status) && c in fetch.cases && status != PendingQueue
    ensures Matches(c, status) <==> IsInHistory(c, status)
  {
    var i :| 0 <= i < |fetch.cases| && fetch.cases[i] == c;
    assert fetch.cases[i].reviewedAt.Some? <==> fetch.cases[i].status != Pending;
  }

  lemma {:induction false} DescendingByTime(rows: seq<ReviewCase>)
    requires Descending(rows)
    ensures forall i, j :: 0 <= i < j < |rows| ==> IsNewer(rows[i], rows[j])
  {
    forall i, j | 0 <= i < j < |rows|
      ensures IsNewer(rows[i], rows[j])
    {
      assert Descends(rows[i], rows[j]);
    }
  }

  /** Reviewed later, or at the same moment under a higher id. */
  predicate IsNewer(a: ReviewCase, b: ReviewCase) {
    && a.reviewedAt.Some? && b.reviewedAt.Some?
    && (a.reviewedAt.value > b.reviewedAt.value || (a.reviewedAt == b.reviewedAt && a.id > b.id))
  }

  /** What that means for each history: all completed reviews, or all with one status, the newest first and, within one
      moment, the highest id first. */
  lemma {:induction false} FinishedWalkIsTheHistory(walk: seq<Fetch>, status: StatusFilter)
    requires IsWalk(walk, status) && walk != [] && walk[|walk| - 1].page.next == None && status != PendingQueue
    ensures forall c :: c in walk[0].cases && IsInHistory(c, status) ==> c in Listed(walk)
    ensures forall c :: c in Listed(walk) ==> IsInHistory(c, status)
    ensures forall i, j :: 0 <= i < j < |Listed(walk)| ==> IsNewer(Listed(walk)[i], Listed(walk)[j])
  {
    FinishedWalkListsEachOnce(walk, status);
    forall c | c in walk[0].cases
      ensures IsInHistory(c, status) ==> c in Listed(walk)
    {
      MatchingIsInHistory(walk[0], status, c);
    }
    forall c | c in Listed(walk)
      ensures IsInHistory(c, status)
    {
      MatchingIsInHistory(walk[|walk| - 1], status, c);
    }
    DescendingByTime(Listed(walk));
  }

  /** The cursor of a page is accepted for the next page of its own status, and refused under any other. */
  lemma {:induction false} MintedCursorServesItsStatus(fetch: Fetch, status: StatusFilter, other: StatusFilter, limit: nat)
    requires GoodFetch(fetch, status) && fetch.page.next.Some? && 0 < limit <= MAX_LIMIT
    requires forall i :: 0 <= i < |fetch.cases| ==> fetch.cases[i].reviewedAt != Some(ZERO_TIME)
    ensures EncodeCursor(fetch.page.next.value).Ok?
    ensures var token := EncodeCursor(fetch.page.next.value).value;
            && NormalizeFilter(status, Some(limit), Some(token)) == Ok(Filter(status, limit, fetch.page.next))
            && (other != status ==> NormalizeFilter(other, Some(limit), Some(token)).Err?)
  {
    PageFacts(fetch, status);
    var last := fetch.page.items[|fetch.page.items| - 1];
    assert last in fetch.cases && Eligible(last, fetch.filter);
    assert fetch.page.next.value.version == CURSOR_VERSION by {
      var rows :| IsNewest(fetch.cases, fetch.filter, fetch.filter.limit + 1, rows)
                  && fetch.page == Trimmed(fetch.filter, rows);
    }
  }
}
