/** Keyset pagination over a repository's jobs while the job protocol keeps running. */
module Pagination {
  import opened Rows
  import opened Protocol
  import opened Invariant
  import opened Decimal
  import opened Sets
  import Database
  import Guarantees
  import Anomalies
  import Sequential

  const DEFAULT_PAGE_LIMIT := 50
  const MAX_PAGE_LIMIT := 100

  // ----- query parameters -----

  function ParseLimit(s: string): (n: nat)
    ensures 1 <= n <= MAX_PAGE_LIMIT
    ensures ParseInt(s).None? ==> n == DEFAULT_PAGE_LIMIT
  {
    if s == "" then DEFAULT_PAGE_LIMIT
    else
      match ParseInt(s)
      case None => DEFAULT_PAGE_LIMIT
      case Some(n) =>
        if n < 1 then DEFAULT_PAGE_LIMIT
        else if n > MAX_PAGE_LIMIT then MAX_PAGE_LIMIT
        else n
  }

  /** Printed numbers are clamped into 1..100, but anything below one counts as absent, and so does a
      number too big for 64 bits. */
  lemma ParseLimitOfNumber(n: int)
    ensures ParseLimit(Print(n)) ==
            if n < 1 || n > MAX_INT64 then DEFAULT_PAGE_LIMIT else if n < MAX_PAGE_LIMIT then n else MAX_PAGE_LIMIT
  {
    if Int64(n) {
      ParsePrint(n);
    } else {
      var m := if n < 0 then -n else n;
      ValueOfDigits(m);
      if n < 0 {
        assert Print(n)[1..] == Digits(m);
      } else {
        assert IsDigit(Print(n)[0]);
      }
    }
  }

  /** Writing and reading of cursors (RFC 3339 with fractional seconds, section 5.6 of RFC 3339). */
  datatype Codec = Codec(format: Time -> string, parse: string -> Option<Time>)

  ghost predicate Lossless(codec: Codec) {
    forall t: Time :: codec.format(t) != "" && codec.parse(codec.format(t)) == Some(t)
  }

  /** None is the bad-cursor error; an absent cursor means the current time. */
  function ParseCursor(raw: string, now: Time, codec: Codec): Option<Time> {
    if raw == "" then Some(now) else codec.parse(raw)
  }

  // ----- one page -----

  /** The rows `WHERE repo_id = $1 AND created_at < $2` selects. */
  function Matching(jobs: map<JobId, Job>, repo: RepoId, before: Time): set<JobId> {
    set j | j in jobs && jobs[j].repo == repo && jobs[j].createdAt < before
  }

  predicate NewestFirst(jobs: map<JobId, Job>, rows: seq<JobId>) {
    && (forall i :: 0 <= i < |rows| ==> rows[i] in jobs)
    && (forall i, k :: 0 <= i < k < |rows| ==>
          rows[i] != rows[k] && rows[i] in jobs && rows[k] in jobs && jobs[rows[i]].createdAt >= jobs[rows[k]].createdAt)
  }

  /** `ORDER BY created_at DESC LIMIT $3`; rows with equal times may come in any order. */
  predicate TopRows(jobs: map<JobId, Job>, repo: RepoId, before: Time, limit: nat, rows: seq<JobId>) {
    var matching := Matching(jobs, repo, before);
    && NewestFirst(jobs, rows)
    && (forall j :: j in rows ==> j in matching)
    && (forall i, j :: 0 <= i < |rows| && j in matching && j !in rows ==> jobs[j].createdAt <= jobs[rows[i]].createdAt)
    && |rows| <= limit
    && (|rows| < limit ==> forall j :: j in matching ==> j in rows)
  }

  datatype Response = InvalidRepoId | InvalidCursor | InternalError | Listing(rows: seq<JobId>, next: Option<string>)

  /** The listing for a cursor: the next cursor is the creation time of the last row of a full page. */
  predicate Lists(jobs: map<JobId, Job>, repo: RepoId, before: Time, limit: nat, codec: Codec, r: Response) {
    && r.Listing?
    && TopRows(jobs, repo, before, limit, r.rows)
    && r.next == if |r.rows| == limit && limit > 0 then Some(codec.format(jobs[r.rows[|r.rows| - 1]].createdAt)) else None
  }

  lemma {:induction false} NewestExists(jobs: map<JobId, Job>, ids: set<JobId>) returns (j: JobId)
    requires ids != {} && ids <= jobs.Keys
    ensures j in ids && forall k :: k in ids ==> jobs[k].createdAt <= jobs[j].createdAt
    decreases |ids|
  {
    j :| j in ids;
    if ids != {j} {
      var k := NewestExists(jobs, ids - {j});
      if jobs[j].createdAt < jobs[k].createdAt {
        j := k;
      }
    }
  }

  lemma Appended(jobs: map<JobId, Job>, rows: seq<JobId>, j: JobId)
    requires NewestFirst(jobs, rows) && j in jobs && j !in rows
    requires forall i :: 0 <= i < |rows| ==> rows[i] in jobs && jobs[j].createdAt <= jobs[rows[i]].createdAt
    ensures NewestFirst(jobs, rows + [j])
  {
    assert forall i :: 0 <= i < |rows| ==> (rows + [j])[i] == rows[i] && rows[i] in rows;
  }

  method ListJobsByRepo(db: Database.Store, repo: RepoId, before: Time, limit: nat) returns (rows: seq<JobId>)
    ensures TopRows(db.jobs, repo, before, limit, rows)
    ensures forall j :: j in rows ==> j in db.jobs && db.jobs[j].repo == repo && db.jobs[j].createdAt < before
    ensures |rows| < limit ==>
      forall j :: j in db.jobs && db.jobs[j].repo == repo && db.jobs[j].createdAt < before ==> j in rows
  {
    rows := [];
    var rest := Matching(db.jobs, repo, before);
    ghost var all := rest;
    while rest != {} && |rows| < limit
      invariant rest <= all && |rows| <= limit
      invariant forall j :: j in rows <==> j in all - rest
      invariant NewestFirst(db.jobs, rows)
      invariant forall i, j :: 0 <= i < |rows| && j in rest ==> db.jobs[j].createdAt <= db.jobs[rows[i]].createdAt
      decreases |rest|
    {
      ghost var newest := NewestExists(db.jobs, rest);
      var j :| j in rest && forall k :: k in rest ==> db.jobs[k].createdAt <= db.jobs[j].createdAt;
      Appended(db.jobs, rows, j);
      rows := rows + [j];
      rest := rest - {j};
    }
  }

  /** None as `repo` is a path parameter that is no UUID. */
  method ListJobs(db: Database.Store, repo: Option<RepoId>, limitParam: string, cursorParam: string, queryOk: bool,
                  codec: Codec)
    returns (r: Response)
    ensures repo.None? <==> r == InvalidRepoId
    ensures repo.Some? && ParseCursor(cursorParam, db.clock, codec).None? <==> r == InvalidCursor
    ensures repo.Some? && ParseCursor(cursorParam, db.clock, codec).Some? ==>
      if queryOk
      then Lists(db.jobs, repo.value, ParseCursor(cursorParam, db.clock, codec).value, ParseLimit(limitParam), codec, r)
      else r == InternalError
    ensures r == InvalidCursor <==> repo.Some? && cursorParam != "" && codec.parse(cursorParam).None?
    ensures r == InternalError <==> repo.Some? && r != InvalidCursor && !queryOk
    ensures r.Listing? ==>
      var before, limit := if cursorParam == "" then db.clock else codec.parse(cursorParam).value, ParseLimit(limitParam);
      && TopRows(db.jobs, repo.value, before, limit, r.rows)
      && (forall j :: j in r.rows ==> j in db.jobs && db.jobs[j].repo == repo.value && db.jobs[j].createdAt < before)
      && (|r.rows| < limit ==>
            forall j :: j in db.jobs && db.jobs[j].repo == repo.value && db.jobs[j].createdAt < before ==> j in r.rows)
      && r.next == if |r.rows| == limit then Some(codec.format(db.jobs[r.rows[|r.rows| - 1]].createdAt)) else None
  {
    if repo.None? {
      return InvalidRepoId;
    }
    var limit := ParseLimit(limitParam);
    var cursor := ParseCursor(cursorParam, db.clock, codec);
    if cursor.None? {
      return InvalidCursor;
    }
    if !queryOk {
      return InternalError;
    }
    var rows := ListJobsByRepo(db, repo.value, cursor.value, limit);
    var next := None;
    if |rows| == limit {
      var last := rows[|rows| - 1];
      next := Some(codec.format(db.jobs[last].createdAt));
    }
    return Listing(rows, next);
  }

  // ----- following the cursor over one table -----

  /** A page as the client sees it, its next cursor read back as a time. */
  datatype Page = Page(limit: nat, rows: seq<JobId>, next: Option<Time>)

  predicate PageAt(jobs: map<JobId, Job>, repo: RepoId, before: Time, p: Page) {
    && p.limit >= 1
    && TopRows(jobs, repo, before, p.limit, p.rows)
    && p.next == if |p.rows| == p.limit then Some(jobs[p.rows[|p.rows| - 1]].createdAt) else None
  }

  /** Each page was asked for with the cursor of the one before. */
  predicate Chain(jobs: map<JobId, Job>, repo: RepoId, before: Time, pages: seq<Page>)
    decreases |pages|
  {
    pages != [] ==>
      && PageAt(jobs, repo, before, pages[0])
      && (|pages| > 1 ==> pages[0].next.Some? && Chain(jobs, repo, pages[0].next.value, pages[1..]))
  }

  predicate Complete(pages: seq<Page>) {
    pages != [] && pages[|pages| - 1].next.None?
  }

  function AllRows(pages: seq<Page>): seq<JobId> {
    if pages == [] then [] else pages[0].rows + AllRows(pages[1..])
  }

  /** Job `j` has the creation time of the last row of a full page that does not hold it. */
  predicate SplitTie(jobs: map<JobId, Job>, pages: seq<Page>, j: JobId)
    requires j in jobs
  {
    exists i :: 0 <= i < |pages| && pages[i].next == Some(jobs[j].createdAt) && j !in pages[i].rows
  }

  /** A full page leaves exactly the older rows, and the ones tied with its last row. */
  lemma NextMatching(jobs: map<JobId, Job>, repo: RepoId, before: Time, p: Page, j: JobId)
    requires PageAt(jobs, repo, before, p) && p.next.Some? && j in jobs
    ensures p.next.value < before
    ensures j in Matching(jobs, repo, p.next.value) ==> j in Matching(jobs, repo, before) && j !in p.rows
    ensures j in Matching(jobs, repo, before) && j !in p.rows ==> jobs[j].createdAt <= p.next.value
  {
    var last := p.rows[|p.rows| - 1];
    assert last in p.rows;
    if j in p.rows {
      var i :| 0 <= i < |p.rows| && p.rows[i] == j;
      assert jobs[j].createdAt >= jobs[last].createdAt;
    }
  }

  lemma RowNotOlder(jobs: map<JobId, Job>, repo: RepoId, before: Time, p: Page, j: JobId)
    requires PageAt(jobs, repo, before, p) && p.next.Some? && j in p.rows
    ensures j in jobs && jobs[j].createdAt >= p.next.value
  {
    var i :| 0 <= i < |p.rows| && p.rows[i] == j;
  }

  lemma {:induction false} CursorsFall(jobs: map<JobId, Job>, repo: RepoId, before: Time, pages: seq<Page>, i: nat)
    requires Chain(jobs, repo, before, pages) && i < |pages| && pages[i].next.Some?
    ensures pages[i].next.value < before
    decreases i
  {
    assert pages[0].next.Some?;
    var last := pages[0].rows[|pages[0].rows| - 1];
    NextMatching(jobs, repo, before, pages[0], last);
    if i == 0 {
    } else {
      CursorsFall(jobs, repo, pages[0].next.value, pages[1..], i - 1);
    }
  }

  /** The pages hold only matching rows, newest first and without repetition. */
  lemma {:induction false} RowsInOrder(jobs: map<JobId, Job>, repo: RepoId, before: Time, pages: seq<Page>)
    requires Chain(jobs, repo, before, pages)
    ensures NewestFirst(jobs, AllRows(pages))
    ensures forall j :: j in AllRows(pages) ==> j in Matching(jobs, repo, before)
    decreases |pages|
  {
    if |pages| == 1 {
      assert AllRows(pages[1..]) == [];
      assert AllRows(pages) == pages[0].rows;
    } else if |pages| > 1 {
      var p, rest := pages[0], AllRows(pages[1..]);
      RowsInOrder(jobs, repo, p.next.value, pages[1..]);
      forall j | j in rest
        ensures j in Matching(jobs, repo, before) && j !in p.rows
      {
        NextMatching(jobs, repo, before, p, j);
      }
      Joined(jobs, p.rows, rest, p.next.value);
    }
  }

  lemma Joined(jobs: map<JobId, Job>, a: seq<JobId>, b: seq<JobId>, cut: Time)
    requires NewestFirst(jobs, a) && NewestFirst(jobs, b)
    requires a != [] && jobs[a[|a| - 1]].createdAt == cut
    requires forall j :: j in b ==> j in jobs && jobs[j].createdAt < cut && j !in a
    ensures NewestFirst(jobs, a + b)
  {
    var s := a + b;
    forall i, k | 0 <= i < k < |s|
      ensures s[i] != s[k] && s[i] in jobs && s[k] in jobs && jobs[s[i]].createdAt >= jobs[s[k]].createdAt
    {
      if i < |a| <= k {
        assert a[i] in a && b[k - |a|] in b;
        assert jobs[a[i]].createdAt >= jobs[a[|a| - 1]].createdAt;
      }
    }
  }

  /** Exactly the rows tied across a page boundary are missed. */
  lemma {:induction false} MissedIffTied(jobs: map<JobId, Job>, repo: RepoId, before: Time, pages: seq<Page>, j: JobId)
    requires Chain(jobs, repo, before, pages) && Complete(pages) && j in Matching(jobs, repo, before)
    ensures j in AllRows(pages) <==> !SplitTie(jobs, pages, j)
    decreases |pages|
  {
    var p := pages[0];
    if j in p.rows {
      forall i | 0 < i < |pages|
        ensures pages[i].next != Some(jobs[j].createdAt)
      {
        RowNotOlder(jobs, repo, before, p, j);
        if pages[i].next.Some? {
          assert pages[i] == pages[1..][i - 1];
          CursorsFall(jobs, repo, p.next.value, pages[1..], i - 1);
        }
      }
    } else if |pages| == 1 {
      assert false;
    } else {
      NextMatching(jobs, repo, before, p, j);
      if jobs[j].createdAt == p.next.value {
        assert SplitTie(jobs, pages, j);
        RowsInOrder(jobs, repo, p.next.value, pages[1..]);
      } else {
        MissedIffTied(jobs, repo, p.next.value, pages[1..], j);
        assert SplitTie(jobs, pages[1..], j) <==> SplitTie(jobs, pages, j) by {
          assert forall i :: 0 < i < |pages| ==> pages[i] == pages[1..][i - 1];
          assert forall i :: 0 <= i < |pages[1..]| ==> pages[1..][i] == pages[i + 1];
        }
      }
    }
  }

  lemma RestShrinks(jobs: map<JobId, Job>, repo: RepoId, before: Time, p: Page)
    requires PageAt(jobs, repo, before, p) && p.next.Some?
    ensures |Matching(jobs, repo, p.next.value)| < |Matching(jobs, repo, before)|
  {
    var all, rest := Matching(jobs, repo, before), Matching(jobs, repo, p.next.value);
    var last := p.rows[|p.rows| - 1];
    assert last in p.rows;
    assert rest <= all - {last} by {
      forall j | j in rest
        ensures j in all - {last}
      {
        NextMatching(jobs, repo, before, p, j);
      }
    }
    SubsetSize(rest, all - {last});
  }

  /** Every page but the last makes progress, so the client needs at most one page per job, and one more. */
  lemma {:induction false} ChainIsShort(jobs: map<JobId, Job>, repo: RepoId, before: Time, pages: seq<Page>)
    requires Chain(jobs, repo, before, pages)
    ensures |pages| <= |Matching(jobs, repo, before)| + 1
    decreases |pages|
  {
    if |pages| <= 1 {
    } else {
      RestShrinks(jobs, repo, before, pages[0]);
      ChainIsShort(jobs, repo, pages[0].next.value, pages[1..]);
    }
  }

  predicate DistinctTimes(jobs: map<JobId, Job>, ids: set<JobId>)
    requires ids <= jobs.Keys
  {
    forall j, k :: j in ids && k in ids && jobs[j].createdAt == jobs[k].createdAt ==> j == k
  }

  function RowSet(rows: seq<JobId>): set<JobId> {
    set j | j in rows
  }

  lemma {:induction false} RowSetSize(jobs: map<JobId, Job>, rows: seq<JobId>)
    requires NewestFirst(jobs, rows)
    ensures |RowSet(rows)| == |rows|
  {
    if rows == [] {
      assert RowSet(rows) == {};
    } else {
      var before, last := rows[..|rows| - 1], rows[|rows| - 1];
      RowSetSize(jobs, before);
      assert rows == before + [last];
      assert RowSet(rows) == RowSet(before) + {last};
    }
  }

  lemma FullPageTakesLimit(jobs: map<JobId, Job>, repo: RepoId, before: Time, p: Page)
    requires PageAt(jobs, repo, before, p) && p.next.Some? && DistinctTimes(jobs, Matching(jobs, repo, before))
    ensures |Matching(jobs, repo, before)| == p.limit + |Matching(jobs, repo, p.next.value)|
  {
    var all, rest := Matching(jobs, repo, before), Matching(jobs, repo, p.next.value);
    RowSetSize(jobs, p.rows);
    var last := p.rows[|p.rows| - 1];
    assert last in p.rows;
    forall j | j in jobs
      ensures j in all <==> j in RowSet(p.rows) || j in rest
      ensures !(j in RowSet(p.rows) && j in rest)
    {
      NextMatching(jobs, repo, before, p, j);
    }
    assert all == RowSet(p.rows) + rest;
    assert RowSet(p.rows) !! rest;
  }

  lemma LastPageHasTheRest(jobs: map<JobId, Job>, repo: RepoId, before: Time, p: Page)
    requires PageAt(jobs, repo, before, p) && p.next.None?
    ensures |Matching(jobs, repo, before)| < p.limit
  {
    RowSetSize(jobs, p.rows);
    assert Matching(jobs, repo, before) == RowSet(p.rows);
  }

  /** With one limit throughout, N jobs take N / limit + 1 pages: a multiple of the limit costs an empty page. */
  lemma {:induction false} PageCount(jobs: map<JobId, Job>, repo: RepoId, before: Time, pages: seq<Page>, limit: nat)
    requires Chain(jobs, repo, before, pages) && Complete(pages)
    requires forall i :: 0 <= i < |pages| ==> pages[i].limit == limit
    requires DistinctTimes(jobs, Matching(jobs, repo, before))
    ensures (|pages| - 1) * limit <= |Matching(jobs, repo, before)| < |pages| * limit
    decreases |pages|
  {
    if |pages| == 1 {
      LastPageHasTheRest(jobs, repo, before, pages[0]);
    } else {
      var next := pages[0].next.value;
      FullPageTakesLimit(jobs, repo, before, pages[0]);
      forall j | j in Matching(jobs, repo, next)
        ensures j in Matching(jobs, repo, before)
      {
        NextMatching(jobs, repo, before, pages[0], j);
      }
      PageCount(jobs, repo, next, pages[1..], limit);
      Distribute(|pages| - 1, limit);
      Distribute(|pages| - 2, limit);
    }
  }

  lemma Distribute(a: int, b: int)
    ensures (a + 1) * b == a * b + b
  {
  }

  // ----- when nothing is missed, seen from the table -----

  function Newer(jobs: map<JobId, Job>, ids: set<JobId>, t: Time): set<JobId>
    requires ids <= jobs.Keys
  {
    set j | j in ids && jobs[j].createdAt > t
  }

  function NotOlder(jobs: map<JobId, Job>, ids: set<JobId>, t: Time): set<JobId>
    requires ids <= jobs.Keys
  {
    set j | j in ids && jobs[j].createdAt >= t
  }

  /** How many rows lie above the `q`th page boundary. */
  function Cut(q: nat, limit: nat): nat {
    q * limit
  }

  /** The `q`th page boundary falls between jobs of the instant `t`. */
  predicate CutsTie(jobs: map<JobId, Job>, ids: set<JobId>, limit: nat, t: Time, q: nat)
    requires ids <= jobs.Keys
  {
    |Newer(jobs, ids, t)| < Cut(q, limit) < |NotOlder(jobs, ids, t)|
  }

  ghost predicate NoTieCut(jobs: map<JobId, Job>, ids: set<JobId>, limit: nat)
    requires ids <= jobs.Keys
  {
    forall j, q: nat :: j in ids ==> !CutsTie(jobs, ids, limit, jobs[j].createdAt, q)
  }

  lemma CutGrows(q: nat, limit: nat)
    requires q >= 1
    ensures Cut(q, limit) == Cut(q - 1, limit) + limit
  {
    Distribute(q - 1, limit);
  }

  lemma LastPageCutsNothing(jobs: map<JobId, Job>, ids: set<JobId>, limit: nat)
    requires ids <= jobs.Keys && |ids| < limit
    ensures NoTieCut(jobs, ids, limit)
  {
    forall j, q: nat | j in ids
      ensures !CutsTie(jobs, ids, limit, jobs[j].createdAt, q)
    {
      SubsetSize(NotOlder(jobs, ids, jobs[j].createdAt), ids);
      if q >= 1 {
        CutGrows(q, limit);
      }
    }
  }

  /** A full page that leaves a tied job behind is a boundary inside a tie. */
  lemma LeftBehindCutsTie(jobs: map<JobId, Job>, repo: RepoId, before: Time, p: Page, j: JobId)
    requires PageAt(jobs, repo, before, p) && p.next.Some?
    requires j in Matching(jobs, repo, before) && j !in p.rows && jobs[j].createdAt == p.next.value
    ensures CutsTie(jobs, Matching(jobs, repo, before), p.limit, p.next.value, 1)
  {
    var all, on, last := Matching(jobs, repo, before), RowSet(p.rows), p.rows[|p.rows| - 1];
    RowSetSize(jobs, p.rows);
    assert last in p.rows;
    forall k | k in Newer(jobs, all, p.next.value)
      ensures k in on - {last}
    {
      NextMatching(jobs, repo, before, p, k);
    }
    forall k | k in on + {j}
      ensures k in NotOlder(jobs, all, p.next.value)
    {
      if k in p.rows {
        RowNotOlder(jobs, repo, before, p, k);
      }
    }
    SubsetSize(Newer(jobs, all, p.next.value), on - {last});
    SubsetSize(on + {j}, NotOlder(jobs, all, p.next.value));
    CutGrows(1, p.limit);
  }

  /** The page boundaries of the whole listing are the first one and those of the rest, one page down. */
  lemma RestShifts(jobs: map<JobId, Job>, all: set<JobId>, on: set<JobId>, rest: set<JobId>, cut: Time, limit: nat)
    requires all == on + rest && on !! rest && |on| == limit && all <= jobs.Keys
    requires forall j :: j in on ==> jobs[j].createdAt >= cut
    requires forall j :: j in rest ==> jobs[j].createdAt < cut
    ensures NoTieCut(jobs, all, limit) <==> NoTieCut(jobs, rest, limit)
  {
    forall j, q: nat | j in rest
      ensures CutsTie(jobs, all, limit, jobs[j].createdAt, q + 1) <==> CutsTie(jobs, rest, limit, jobs[j].createdAt, q)
      ensures !CutsTie(jobs, all, limit, jobs[j].createdAt, 0)
    {
      var t := jobs[j].createdAt;
      assert Newer(jobs, all, t) == on + Newer(jobs, rest, t);
      assert NotOlder(jobs, all, t) == on + NotOlder(jobs, rest, t);
      CutGrows(q + 1, limit);
    }
    forall j, q: nat | j in on
      ensures !CutsTie(jobs, all, limit, jobs[j].createdAt, q)
    {
      SubsetSize(NotOlder(jobs, all, jobs[j].createdAt), on);
      if q >= 1 {
        CutGrows(q, limit);
      }
    }
    if NoTieCut(jobs, all, limit) {
      forall j, q: nat | j in rest
        ensures !CutsTie(jobs, rest, limit, jobs[j].createdAt, q)
      {
        assert !CutsTie(jobs, all, limit, jobs[j].createdAt, q + 1);
      }
    }
    if NoTieCut(jobs, rest, limit) {
      forall j, q: nat | j in all
        ensures !CutsTie(jobs, all, limit, jobs[j].createdAt, q)
      {
        if j in rest && q >= 1 {
          assert !CutsTie(jobs, rest, limit, jobs[j].createdAt, q - 1);
          assert CutsTie(jobs, all, limit, jobs[j].createdAt, q - 1 + 1) <==> CutsTie(jobs, rest, limit, jobs[j].createdAt, q - 1);
        }
      }
    }
  }

  predicate AllListed(ids: set<JobId>, rows: seq<JobId>) {
    forall j :: j in ids ==> j in rows
  }

  lemma NothingLeftBehind(jobs: map<JobId, Job>, repo: RepoId, before: Time, p: Page)
    requires PageAt(jobs, repo, before, p) && p.next.Some?
    requires forall j :: j in Matching(jobs, repo, before) && j !in p.rows ==> jobs[j].createdAt != p.next.value
    ensures var all, on, rest := Matching(jobs, repo, before), RowSet(p.rows), Matching(jobs, repo, p.next.value);
      && all == on + rest && on !! rest && |on| == p.limit
      && (forall j :: j in on ==> jobs[j].createdAt >= p.next.value)
  {
    RowSetSize(jobs, p.rows);
    forall j | j in jobs
      ensures j in Matching(jobs, repo, before) <==> j in RowSet(p.rows) || j in Matching(jobs, repo, p.next.value)
      ensures !(j in RowSet(p.rows) && j in Matching(jobs, repo, p.next.value))
      ensures j in RowSet(p.rows) ==> jobs[j].createdAt >= p.next.value
    {
      NextMatching(jobs, repo, before, p, j);
      if j in p.rows {
        RowNotOlder(jobs, repo, before, p, j);
      }
    }
  }

  lemma LeftBehindIsMissed(jobs: map<JobId, Job>, repo: RepoId, before: Time, pages: seq<Page>, limit: nat, j: JobId)
    requires Chain(jobs, repo, before, pages) && Complete(pages) && pages[0].limit == limit && pages[0].next.Some?
    requires j in Matching(jobs, repo, before) && j !in pages[0].rows && jobs[j].createdAt == pages[0].next.value
    ensures !AllListed(Matching(jobs, repo, before), AllRows(pages))
    ensures !NoTieCut(jobs, Matching(jobs, repo, before), limit)
  {
    LeftBehindCutsTie(jobs, repo, before, pages[0], j);
    assert SplitTie(jobs, pages, j);
    MissedIffTied(jobs, repo, before, pages, j);
  }

  /** When the first page leaves no tie behind, the rest decides. */
  lemma RestDecides(jobs: map<JobId, Job>, repo: RepoId, before: Time, pages: seq<Page>)
    requires Chain(jobs, repo, before, pages) && |pages| > 1
    requires forall j :: j in Matching(jobs, repo, before) && j !in pages[0].rows ==> jobs[j].createdAt != pages[0].next.value
    ensures var all, rest := Matching(jobs, repo, before), Matching(jobs, repo, pages[0].next.value);
      && (AllListed(all, AllRows(pages)) <==> AllListed(rest, AllRows(pages[1..])))
      && (NoTieCut(jobs, all, pages[0].limit) <==> NoTieCut(jobs, rest, pages[0].limit))
  {
    var p := pages[0];
    NothingLeftBehind(jobs, repo, before, p);
    RestShifts(jobs, Matching(jobs, repo, before), RowSet(p.rows), Matching(jobs, repo, p.next.value), p.next.value, p.limit);
    RestListed(jobs, repo, before, pages);
  }

  lemma OnlyPage(jobs: map<JobId, Job>, repo: RepoId, before: Time, p: Page)
    requires PageAt(jobs, repo, before, p) && p.next.None?
    ensures AllListed(Matching(jobs, repo, before), AllRows([p]))
    ensures NoTieCut(jobs, Matching(jobs, repo, before), p.limit)
  {
    LastPageHasTheRest(jobs, repo, before, p);
    LastPageCutsNothing(jobs, Matching(jobs, repo, before), p.limit);
    assert AllRows([p]) == p.rows + AllRows([p][1..]);
  }

  /** With one limit throughout, the pages miss nothing exactly when no page boundary of the table falls between
      jobs of one instant: a condition on the table and the limit alone. */
  lemma {:induction false} CompleteIffNoTieCut(jobs: map<JobId, Job>, repo: RepoId, before: Time, pages: seq<Page>, limit: nat)
    requires Chain(jobs, repo, before, pages) && Complete(pages)
    requires forall i :: 0 <= i < |pages| ==> pages[i].limit == limit
    ensures AllListed(Matching(jobs, repo, before), AllRows(pages)) <==> NoTieCut(jobs, Matching(jobs, repo, before), limit)
    decreases |pages|
  {
    if |pages| == 1 {
      assert pages == [pages[0]];
      OnlyPage(jobs, repo, before, pages[0]);
    } else if j :| j in Matching(jobs, repo, before) && j !in pages[0].rows && jobs[j].createdAt == pages[0].next.value {
      LeftBehindIsMissed(jobs, repo, before, pages, limit, j);
    } else {
      RestDecides(jobs, repo, before, pages);
      CompleteIffNoTieCut(jobs, repo, pages[0].next.value, pages[1..], limit);
    }
  }

  lemma RestListed(jobs: map<JobId, Job>, repo: RepoId, before: Time, pages: seq<Page>)
    requires pages != [] && PageAt(jobs, repo, before, pages[0]) && pages[0].next.Some?
    requires Matching(jobs, repo, before) == RowSet(pages[0].rows) + Matching(jobs, repo, pages[0].next.value)
    requires RowSet(pages[0].rows) !! Matching(jobs, repo, pages[0].next.value)
    ensures AllListed(Matching(jobs, repo, before), AllRows(pages))
            <==> AllListed(Matching(jobs, repo, pages[0].next.value), AllRows(pages[1..]))
  {
    assert forall j :: j in AllRows(pages) <==> j in pages[0].rows || j in AllRows(pages[1..]);
    assert forall j :: j in RowSet(pages[0].rows) <==> j in pages[0].rows;
    forall j | j in Matching(jobs, repo, pages[0].next.value)
      ensures j in Matching(jobs, repo, before) && j !in pages[0].rows
    {
      assert j !in RowSet(pages[0].rows);
    }
  }

  /** For pages of one row that is exactly having distinct creation times. */
  lemma OneRowPages(jobs: map<JobId, Job>, ids: set<JobId>)
    requires ids <= jobs.Keys
    ensures NoTieCut(jobs, ids, 1) <==> DistinctTimes(jobs, ids)
  {
    if NoTieCut(jobs, ids, 1) {
      forall j, k | j in ids && k in ids && jobs[j].createdAt == jobs[k].createdAt
        ensures j == k
      {
        var t := jobs[j].createdAt;
        if j != k {
          var above := Newer(jobs, ids, t);
          assert |above + {j, k}| == |above| + 2;
          SubsetSize(above + {j, k}, NotOlder(jobs, ids, t));
          assert CutsTie(jobs, ids, 1, t, |above| + 1);
        }
      }
    }
    if DistinctTimes(jobs, ids) {
      forall j, q: nat | j in ids
        ensures !CutsTie(jobs, ids, 1, jobs[j].createdAt, q)
      {
        var t := jobs[j].createdAt;
        assert NotOlder(jobs, ids, t) == Newer(jobs, ids, t) + {j};
      }
    }
  }

  // ----- while the protocol runs -----

  /** One request of the client: at state `at` of the run and clock `now`. */
  datatype Visit = Visit(at: nat, now: Time, limitParam: string, response: Response)

  /** Each response answers the request with the cursor text of the response before. */
  ghost predicate Follows(ss: seq<State>, repo: RepoId, codec: Codec, raw: string, vs: seq<Visit>)
    decreases |vs|
  {
    vs != [] ==>
      && vs[0].at < |ss|
      && var cursor := ParseCursor(raw, vs[0].now, codec);
      && cursor.Some?
      && Lists(ss[vs[0].at].db.jobs, repo, cursor.value, ParseLimit(vs[0].limitParam), codec, vs[0].response)
      && (|vs| > 1 ==>
            && vs[0].at <= vs[1].at
            && vs[0].response.next.Some?
            && Follows(ss, repo, codec, vs[0].response.next.value, vs[1..]))
  }

  function PageOf(codec: Codec, v: Visit): Page {
    if !v.response.Listing? then Page(0, [], None)
    else
      Page(ParseLimit(v.limitParam), v.response.rows,
           if v.response.next.None? then None else codec.parse(v.response.next.value))
  }

  function PagesOf(codec: Codec, vs: seq<Visit>): seq<Page> {
    if vs == [] then [] else [PageOf(codec, vs[0])] + PagesOf(codec, vs[1..])
  }

  /** The table a page read, seen below the first cursor, is the table at the start. */
  predicate SameBelow(jobs: map<JobId, Job>, jobs': map<JobId, Job>, repo: RepoId, before: Time) {
    && Matching(jobs', repo, before) == Matching(jobs, repo, before)
    && forall j :: j in Matching(jobs, repo, before) ==> jobs'[j].createdAt == jobs[j].createdAt
  }

  lemma SamePage(jobs: map<JobId, Job>, jobs': map<JobId, Job>, repo: RepoId, start: Time, before: Time, codec: Codec,
                 v: Visit)
    requires SameBelow(jobs, jobs', repo, start) && before <= start && Lossless(codec)
    requires Lists(jobs', repo, before, ParseLimit(v.limitParam), codec, v.response)
    ensures PageAt(jobs, repo, before, PageOf(codec, v))
  {
    var rows := v.response.rows;
    forall j
      ensures j in Matching(jobs', repo, before) <==> j in Matching(jobs, repo, before)
      ensures j in Matching(jobs, repo, before) ==> jobs'[j].createdAt == jobs[j].createdAt
    {
      assert j in Matching(jobs', repo, start) <==> j in Matching(jobs, repo, start);
    }
    assert forall i :: 0 <= i < |rows| ==> rows[i] in rows && rows[i] in Matching(jobs, repo, before);
    assert NewestFirst(jobs, rows);
  }

  /** Jobs of the repository that appear after state `n` are not older than `start`. */
  ghost predicate LaterInsertsNewer(ss: seq<State>, n: nat, repo: RepoId, start: Time)
    requires n < |ss|
  {
    forall k, j :: n <= k < |ss| && j in ss[k].db.jobs && j !in ss[n].db.jobs && ss[k].db.jobs[j].repo == repo ==>
      ss[k].db.jobs[j].createdAt >= start
  }

  lemma TablesAgree(ss: seq<State>, es: seq<Event>, n: nat, k: nat, repo: RepoId, start: Time)
    requires Run(ss, es) && n <= k < |ss| && LaterInsertsNewer(ss, n, repo, start)
    ensures SameBelow(ss[n].db.jobs, ss[k].db.jobs, repo, start)
  {
    Guarantees.RunLater(ss, es, n, k);
    var jobs, jobs' := ss[n].db.jobs, ss[k].db.jobs;
    assert forall j :: j in jobs ==> j in jobs' && Evolves(jobs[j], jobs'[j]);
    assert Matching(jobs', repo, start) == Matching(jobs, repo, start);
  }

  /** The pages read at different states of a run chain up over the table as it was at the first. */
  lemma {:induction false} VisitsChain(ss: seq<State>, es: seq<Event>, n: nat, repo: RepoId, codec: Codec, start: Time,
                                       raw: string, vs: seq<Visit>)
    requires Run(ss, es) && n < |ss| && LaterInsertsNewer(ss, n, repo, start) && Lossless(codec)
    requires Follows(ss, repo, codec, raw, vs)
    requires vs != [] ==> n <= vs[0].at && ParseCursor(raw, vs[0].now, codec).value <= start
    ensures |PagesOf(codec, vs)| == |vs|
    ensures vs != [] ==> Chain(ss[n].db.jobs, repo, ParseCursor(raw, vs[0].now, codec).value, PagesOf(codec, vs))
    decreases |vs|
  {
    if vs == [] {
    } else {
      var jobs, before, pages := ss[n].db.jobs, ParseCursor(raw, vs[0].now, codec).value, PagesOf(codec, vs);
      TablesAgree(ss, es, n, vs[0].at, repo, start);
      SamePage(jobs, ss[vs[0].at].db.jobs, repo, start, before, codec, vs[0]);
      assert pages[1..] == PagesOf(codec, vs[1..]);
      if |vs| > 1 {
        var p, next := pages[0], vs[0].response.next.value;
        assert p.next.Some?;
        NextMatching(jobs, repo, before, p, p.rows[|p.rows| - 1]);
        assert ParseCursor(next, vs[1].now, codec) == p.next;
        VisitsChain(ss, es, n, repo, codec, start, next, vs[1..]);
      }
    }
  }

  /** A client that asks without a cursor first and then follows `next_cursor`. */
  ghost predicate Browses(ss: seq<State>, repo: RepoId, codec: Codec, vs: seq<Visit>) {
    vs != [] && Follows(ss, repo, codec, "", vs)
  }

  ghost predicate Finished(vs: seq<Visit>) {
    vs != [] && vs[|vs| - 1].response.Listing? && vs[|vs| - 1].response.next.None?
  }

  lemma {:induction false} FinishedIsComplete(codec: Codec, vs: seq<Visit>)
    requires Finished(vs)
    ensures Complete(PagesOf(codec, vs))
    decreases |vs|
  {
    if |vs| > 1 {
      assert vs[1..][|vs| - 2] == vs[|vs| - 1];
      FinishedIsComplete(codec, vs[1..]);
    } else {
      assert PagesOf(codec, vs[1..]) == [];
    }
  }

  /** Following the cursor ends: at most one page per job listed, and one more. */
  lemma {:induction false} BrowsingEnds(ss: seq<State>, es: seq<Event>, repo: RepoId, codec: Codec, vs: seq<Visit>)
    requires Run(ss, es) && Lossless(codec) && Browses(ss, repo, codec, vs)
    requires LaterInsertsNewer(ss, vs[0].at, repo, vs[0].now)
    ensures |vs| <= |Matching(ss[vs[0].at].db.jobs, repo, vs[0].now)| + 1
  {
    VisitsChain(ss, es, vs[0].at, repo, codec, vs[0].now, "", vs);
    ChainIsShort(ss[vs[0].at].db.jobs, repo, vs[0].now, PagesOf(codec, vs));
  }

  /** However the protocol moves between pages, the pages hold the repository's jobs at the start newest first,
      each at most once, and exactly those missing that share the creation time of a full page's last row
      without being on that page. */
  lemma {:induction false} PagesMissExactlySplitTies(ss: seq<State>, es: seq<Event>, repo: RepoId, codec: Codec, vs: seq<Visit>)
    requires Run(ss, es) && Lossless(codec) && Browses(ss, repo, codec, vs) && Finished(vs)
    requires LaterInsertsNewer(ss, vs[0].at, repo, vs[0].now)
    ensures var jobs, pages := ss[vs[0].at].db.jobs, PagesOf(codec, vs);
      && NewestFirst(jobs, AllRows(pages))
      && forall j :: j in AllRows(pages) <==> j in Matching(jobs, repo, vs[0].now) && !SplitTie(jobs, pages, j)
  {
    var jobs, pages := ss[vs[0].at].db.jobs, PagesOf(codec, vs);
    VisitsChain(ss, es, vs[0].at, repo, codec, vs[0].now, "", vs);
    FinishedIsComplete(codec, vs);
    RowsInOrder(jobs, repo, vs[0].now, pages);
    forall j | j in Matching(jobs, repo, vs[0].now)
      ensures j in AllRows(pages) <==> !SplitTie(jobs, pages, j)
    {
      MissedIffTied(jobs, repo, vs[0].now, pages, j);
    }
  }

  lemma {:induction false} NoTiesSplit(jobs: map<JobId, Job>, repo: RepoId, before: Time, pages: seq<Page>, j: JobId)
    requires Chain(jobs, repo, before, pages) && DistinctTimes(jobs, Matching(jobs, repo, before))
    requires j in Matching(jobs, repo, before)
    ensures !SplitTie(jobs, pages, j)
    decreases |pages|
  {
    if pages == [] {
    } else {
      var p := pages[0];
      if p.next.Some? {
        var last := p.rows[|p.rows| - 1];
        assert last in p.rows;
        if |pages| > 1 {
          forall k | k in Matching(jobs, repo, p.next.value)
            ensures k in Matching(jobs, repo, before)
          {
            NextMatching(jobs, repo, before, p, k);
          }
          forall i | 1 <= i < |pages|
            ensures !(pages[i].next == Some(jobs[j].createdAt) && j !in pages[i].rows)
          {
            assert pages[i] == pages[1..][i - 1];
            if jobs[j].createdAt < p.next.value {
              NoTiesSplit(jobs, repo, p.next.value, pages[1..], j);
            } else if pages[i].next.Some? {
              CursorsFall(jobs, repo, p.next.value, pages[1..], i - 1);
            }
          }
        }
      }
    }
  }

  /** With distinct creation times the pages together are the full newest-first list of the repository's jobs
      at the start, each exactly once, whatever pushes, claims and callbacks happen between pages. */
  lemma {:induction false} PagesAreTheList(ss: seq<State>, es: seq<Event>, repo: RepoId, codec: Codec, vs: seq<Visit>)
    requires Run(ss, es) && Lossless(codec) && Browses(ss, repo, codec, vs) && Finished(vs)
    requires LaterInsertsNewer(ss, vs[0].at, repo, vs[0].now)
    requires DistinctTimes(ss[vs[0].at].db.jobs, Matching(ss[vs[0].at].db.jobs, repo, vs[0].now))
    ensures var jobs, rows := ss[vs[0].at].db.jobs, AllRows(PagesOf(codec, vs));
      && NewestFirst(jobs, rows)
      && (forall j :: j in rows <==> j in Matching(jobs, repo, vs[0].now))
      && |rows| == |Matching(jobs, repo, vs[0].now)|
  {
    var jobs, pages := ss[vs[0].at].db.jobs, PagesOf(codec, vs);
    PagesMissExactlySplitTies(ss, es, repo, codec, vs);
    VisitsChain(ss, es, vs[0].at, repo, codec, vs[0].now, "", vs);
    forall j | j in Matching(jobs, repo, vs[0].now)
      ensures !SplitTie(jobs, pages, j)
    {
      NoTiesSplit(jobs, repo, vs[0].now, pages, j);
    }
    RowSetSize(jobs, AllRows(pages));
    assert RowSet(AllRows(pages)) == Matching(jobs, repo, vs[0].now);
  }

  lemma {:induction false} LimitsOf(codec: Codec, vs: seq<Visit>, limit: nat)
    requires forall i :: 0 <= i < |vs| ==> vs[i].response.Listing? && ParseLimit(vs[i].limitParam) == limit
    ensures |PagesOf(codec, vs)| == |vs| && forall i :: 0 <= i < |vs| ==> PagesOf(codec, vs)[i].limit == limit
    decreases |vs|
  {
    if vs == [] {
    } else {
      forall i | 0 <= i < |vs[1..]|
        ensures vs[1..][i].response.Listing? && ParseLimit(vs[1..][i].limitParam) == limit
      {
        assert vs[1..][i] == vs[i + 1];
      }
      LimitsOf(codec, vs[1..], limit);
      assert PagesOf(codec, vs)[1..] == PagesOf(codec, vs[1..]);
      forall i | 0 <= i < |vs|
        ensures PagesOf(codec, vs)[i].limit == limit
      {
        assert i > 0 ==> PagesOf(codec, vs)[i] == PagesOf(codec, vs[1..])[i - 1];
      }
    }
  }

  lemma {:induction false} FollowsLists(ss: seq<State>, repo: RepoId, codec: Codec, raw: string, vs: seq<Visit>, i: nat)
    requires Follows(ss, repo, codec, raw, vs) && i < |vs|
    ensures vs[i].response.Listing?
    decreases i
  {
    if i == 0 {
    } else {
      FollowsLists(ss, repo, codec, vs[0].response.next.value, vs[1..], i - 1);
    }
  }

  /** Whatever happens between pages, a client that keeps one limit is shown every job of the start exactly when
      no page boundary of the table at the start falls between jobs of one instant. */
  lemma {:induction false} ListingCompleteIff(ss: seq<State>, es: seq<Event>, repo: RepoId, codec: Codec, vs: seq<Visit>, limit: nat)
    requires Run(ss, es) && Lossless(codec) && Browses(ss, repo, codec, vs) && Finished(vs)
    requires LaterInsertsNewer(ss, vs[0].at, repo, vs[0].now)
    requires forall i :: 0 <= i < |vs| ==> ParseLimit(vs[i].limitParam) == limit
    ensures var jobs := ss[vs[0].at].db.jobs;
      AllListed(Matching(jobs, repo, vs[0].now), AllRows(PagesOf(codec, vs)))
      <==> NoTieCut(jobs, Matching(jobs, repo, vs[0].now), limit)
  {
    VisitsChain(ss, es, vs[0].at, repo, codec, vs[0].now, "", vs);
    FinishedIsComplete(codec, vs);
    forall i | 0 <= i < |vs|
      ensures vs[i].response.Listing?
    {
      FollowsLists(ss, repo, codec, "", vs, i);
    }
    LimitsOf(codec, vs, limit);
    CompleteIffNoTieCut(ss[vs[0].at].db.jobs, repo, vs[0].now, PagesOf(codec, vs), limit);
  }

  // ----- when later inserts are newer -----

  function PushOf(p: Prog): Option<Push> {
    match p
    case PushLock(push) => Some(push)
    case PushRead(push) => Some(push)
    case PushUpdate(push, _) => Some(push)
    case PushInsert(push) => Some(push)
    case PushCommit(push, _) => Some(push)
    case _ => None
  }

  /** No push to the repository is open that began before `start`. */
  predicate NoOlderPush(s: State, repo: RepoId, start: Time) {
    && start <= s.now
    && forall t :: t in s.txs && PushOf(s.txs[t].prog).Some? && PushOf(s.txs[t].prog).value.repo == repo ==> s.txs[t].now >= start
  }

  lemma StmtKeepsPush(s: State, t: TxId, id: nat, s': State)
    requires t in s.txs && StmtNext(s, t, id) == Some(s')
    ensures s'.now == s.now
    ensures forall u :: u in s'.txs ==> u in s.txs && s'.txs[u].now == s.txs[u].now && PushOf(s'.txs[u].prog) == PushOf(s.txs[u].prog)
  {
    var p := s.txs[t].prog;
    if p.PushLock? || p.PushRead? || p.PushUpdate? || p.PushInsert? {
      PushStmtKeepsPush(s, t, id, s');
    } else if p.StartLock? || p.StartWrite? || p.DoneLock? || p.DoneWrite? || p.DoneSnap? {
      CallbackStmtKeepsPush(s, t, id, s');
    } else {
      QueueStmtKeepsPush(s, t, id, s');
    }
  }

  lemma PushStmtKeepsPush(s: State, t: TxId, id: nat, s': State)
    requires t in s.txs && PushStmt(s, t, id) == Some(s')
    ensures s'.now == s.now
    ensures forall u :: u in s'.txs ==> u in s.txs && s'.txs[u].now == s.txs[u].now && PushOf(s'.txs[u].prog) == PushOf(s.txs[u].prog)
  {
  }

  lemma CallbackStmtKeepsPush(s: State, t: TxId, id: nat, s': State)
    requires t in s.txs && CallbackStmt(s, t, id) == Some(s')
    ensures s'.now == s.now
    ensures forall u :: u in s'.txs ==> u in s.txs && s'.txs[u].now == s.txs[u].now && PushOf(s'.txs[u].prog) == PushOf(s.txs[u].prog)
  {
  }

  lemma QueueStmtKeepsPush(s: State, t: TxId, id: nat, s': State)
    requires t in s.txs && QueueStmt(s, t, id) == Some(s')
    ensures s'.now == s.now
    ensures forall u :: u in s'.txs ==> u in s.txs && s'.txs[u].now == s.txs[u].now && PushOf(s'.txs[u].prog) == PushOf(s.txs[u].prog)
  {
  }

  lemma NoOlderPushStays(s: State, e: Event, s': State, repo: RepoId, start: Time)
    requires Step(s, e, s') && NoOlderPush(s, repo, start)
    ensures NoOlderPush(s', repo, start)
  {
    if e.Stmt? {
      StmtKeepsPush(s, e.tx, e.id, s');
    } else {
      OthersKeepPush(s, e, s', repo, start);
    }
  }

  lemma OthersKeepPush(s: State, e: Event, s': State, repo: RepoId, start: Time)
    requires Step(s, e, s') && !e.Stmt? && NoOlderPush(s, repo, start)
    ensures NoOlderPush(s', repo, start)
  {
  }

  lemma {:induction false} NoOlderPushUntil(ss: seq<State>, es: seq<Event>, n: nat, k: nat, repo: RepoId, start: Time)
    requires Run(ss, es) && n <= k < |ss| && NoOlderPush(ss[n], repo, start)
    ensures NoOlderPush(ss[k], repo, start)
    decreases k
  {
    if n == k {
    } else {
      NoOlderPushUntil(ss, es, n, k - 1, repo, start);
      assert Step(ss[k - 1], es[k - 1], ss[k - 1 + 1]);
      NoOlderPushStays(ss[k - 1], es[k - 1], ss[k], repo, start);
    }
  }

  /** A row that a commit adds was created when its push began. */
  lemma CommitInserts(cfg: Config, db: Db, w: World, tx: Tx, j: JobId)
    requires TxInv(cfg, db, w, tx) && ReadyToCommit(tx.prog) && j in Publish(db, tx).jobs && j !in db.jobs
    ensures PushOf(tx.prog).Some? && PushOf(tx.prog).value.repo == Publish(db, tx).jobs[j].repo
    ensures Publish(db, tx).jobs[j].createdAt == tx.now
  {
  }

  lemma InsertIsNewer(ss: seq<State>, es: seq<Event>, k: nat, repo: RepoId, start: Time, j: JobId)
    requires Run(ss, es) && k < |es| && NoOlderPush(ss[k], repo, start)
    requires j in ss[k + 1].db.jobs && j !in ss[k].db.jobs && ss[k + 1].db.jobs[j].repo == repo
    ensures ss[k + 1].db.jobs[j].createdAt >= start
  {
    Guarantees.RunInv(ss, es, k);
    assert Step(ss[k], es[k], ss[k + 1]);
    if es[k].Commit? {
      var tx := ss[k].txs[es[k].tx];
      assert TxInv(ss[k].cfg, ss[k].db, ss[k].world, tx);
      CommitInserts(ss[k].cfg, ss[k].db, ss[k].world, tx, j);
    } else {
      Guarantees.TablesOnlyAtCommit(ss[k], es[k], ss[k + 1]);
    }
  }

  lemma RowKept(ss: seq<State>, es: seq<Event>, k: nat, j: JobId)
    requires Run(ss, es) && k < |es| && j in ss[k].db.jobs
    ensures j in ss[k + 1].db.jobs && ss[k + 1].db.jobs[j].repo == ss[k].db.jobs[j].repo
    ensures ss[k + 1].db.jobs[j].createdAt == ss[k].db.jobs[j].createdAt
  {
    Guarantees.RunLater(ss, es, k, k + 1);
  }

  lemma {:induction false} NewerUntil(ss: seq<State>, es: seq<Event>, n: nat, k: nat, repo: RepoId, start: Time, j: JobId)
    requires Run(ss, es) && n <= k < |ss| && NoOlderPush(ss[n], repo, start)
    requires j in ss[k].db.jobs && j !in ss[n].db.jobs && ss[k].db.jobs[j].repo == repo
    ensures ss[k].db.jobs[j].createdAt >= start
    decreases k
  {
    if n == k {
    } else {
      if j in ss[k - 1].db.jobs {
        RowKept(ss, es, k - 1, j);
        NewerUntil(ss, es, n, k - 1, repo, start, j);
      } else {
        NoOlderPushUntil(ss, es, n, k - 1, repo, start);
        InsertIsNewer(ss, es, k - 1, repo, start, j);
      }
    }
  }

  /** Later inserts are newer whenever, at the first page, the clock has reached the cursor and every open
      push to the repository began at or after it. */
  lemma QuietStartSuffices(ss: seq<State>, es: seq<Event>, n: nat, repo: RepoId, start: Time)
    requires Run(ss, es) && n < |ss| && NoOlderPush(ss[n], repo, start)
    ensures LaterInsertsNewer(ss, n, repo, start)
  {
    forall k, j | n <= k < |ss| && j in ss[k].db.jobs && j !in ss[n].db.jobs && ss[k].db.jobs[j].repo == repo
      ensures ss[k].db.jobs[j].createdAt >= start
    {
      NewerUntil(ss, es, n, k, repo, start, j);
    }
  }

  // ----- a tie across a page boundary -----

  function TiedJobs(): map<JobId, Job> {
    map[0 := NewRow(Push("r", "x", "1", ""), 5), 1 := NewRow(Push("r", "y", "2", ""), 5)]
  }

  lemma TiedPages(codec: Codec)
    ensures Lists(TiedJobs(), "r", 9, 1, codec, Listing([0], Some(codec.format(5))))
    ensures Lists(TiedJobs(), "r", 5, 1, codec, Listing([], None))
    ensures 1 in Matching(TiedJobs(), "r", 9)
  {
    assert Matching(TiedJobs(), "r", 9) == {0, 1};
    assert Matching(TiedJobs(), "r", 5) == {};
  }

  /** Two pushes to different branches whose transactions began at one instant. */
  lemma TiedRun(cfg: Config) returns (ss: seq<State>, es: seq<Event>)
    ensures Run(ss, es) && ss[|es|].db.jobs == TiedJobs() && ss[|es|].txs == map[]
  {
    var x, y := Push("r", "x", "1", ""), Push("r", "y", "2", "");
    var s0 := Init(cfg, 5);
    Anomalies.Quiet(s0, 0);
    assert QueuedOn(s0.db.jobs, "r", "x") == {};
    Sequential.PushMakesAlone(s0, 0, x, 0, 0);
    var first, second := Sequential.PushEvents(0, x, 0, 0), Sequential.PushEvents(0, y, 0, 1);
    var s1 := Sequential.After(s0, first).value;
    assert s1.db.jobs == map[0 := NewRow(x, 5)];
    Anomalies.Quiet(s1, 0);
    assert QueuedOn(s1.db.jobs, "r", "y") == {};
    Sequential.PushMakesAlone(s1, 0, y, 0, 1);
    var s2 := Sequential.After(s1, second).value;
    assert s2.db.jobs == TiedJobs();
    Anomalies.Chained(s0, first, s1, second, s2);
    es := first + second;
    ss := Sequential.AfterIsRun(cfg, 5, es);
  }

  lemma TwoVisits(codec: Codec, one: Visit, two: Visit)
    requires one.response.Listing? && two.response.Listing?
    ensures AllRows(PagesOf(codec, [one, two])) == one.response.rows + two.response.rows
  {
    assert [one, two][1..] == [two] && [two][1..] == [];
    assert PagesOf(codec, [two]) == [PageOf(codec, two)];
    var pages := PagesOf(codec, [one, two]);
    assert pages[1..] == [PageOf(codec, two)] && pages[1..][1..] == [];
    assert AllRows(pages[1..]) == two.response.rows + AllRows([]);
  }

  /** Two requests, the second with the cursor the first was given. */
  lemma TwoRequests(ss: seq<State>, repo: RepoId, codec: Codec, one: Visit, two: Visit, cut: Time)
    requires Lossless(codec) && one.at == two.at < |ss|
    requires Lists(ss[one.at].db.jobs, repo, one.now, ParseLimit(one.limitParam), codec, one.response)
    requires one.response.next == Some(codec.format(cut))
    requires Lists(ss[two.at].db.jobs, repo, cut, ParseLimit(two.limitParam), codec, two.response)
    ensures Browses(ss, repo, codec, [one, two])
  {
    assert [one, two][1..] == [two];
    assert Follows(ss, repo, codec, codec.format(cut), [two]);
  }

  lemma TiedVisits(ss: seq<State>, n: nat, codec: Codec) returns (vs: seq<Visit>)
    requires n < |ss| && ss[n].db.jobs == TiedJobs() && Lossless(codec)
    ensures |vs| == 2 && Browses(ss, "r", codec, vs) && Finished(vs)
    ensures vs[0].at == n && vs[0].now == 9 && AllRows(PagesOf(codec, vs)) == [0]
  {
    ParseLimitOfNumber(1);
    TiedPages(codec);
    var one := Visit(n, 9, Print(1), Listing([0], Some(codec.format(5))));
    var two := Visit(n, 9, Print(1), Listing([], None));
    vs := [one, two];
    TwoRequests(ss, "r", codec, one, two, 5);
    TwoVisits(codec, one, two);
  }

  /** A run, and a client that asks for pages of one: of two jobs of one instant the second is on no page. */
  lemma {:induction false} TiedJobIsSkipped(cfg: Config, codec: Codec) returns (ss: seq<State>, es: seq<Event>, vs: seq<Visit>)
    requires Lossless(codec)
    ensures Run(ss, es) && Browses(ss, "r", codec, vs) && Finished(vs) && vs[0].at == |es|
    ensures 1 in Matching(ss[|es|].db.jobs, "r", vs[0].now) && 1 !in AllRows(PagesOf(codec, vs))
  {
    ss, es := TiedRun(cfg);
    vs := TiedVisits(ss, |es|, codec);
    TiedPages(codec);
  }
}
