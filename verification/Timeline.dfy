/** Paging a thread's history (`threads.py`): each page merges the newest entries of two tables below a cursor. */
module Timeline {
  import opened Basics

  datatype Kind = Job | Ask

  datatype Entry = Entry(kind: Kind, moment: int, id: nat)

  type Cursor = (int, nat)

  /** Newest first: by moment, then by id. */
  predicate Newer(a: Entry, b: Entry) {
    a.moment > b.moment || (a.moment == b.moment && a.id > b.id)
  }

  predicate Below(e: Entry, cursor: Option<Cursor>) {
    cursor.None? || e.moment < cursor.value.0 || (e.moment == cursor.value.0 && e.id < cursor.value.1)
  }

  function CursorOf(e: Entry): Cursor {
    (e.moment, e.id)
  }

  ghost predicate Descending(s: seq<Entry>) {
    forall i, j | 0 <= i < j < |s| :: Newer(s[i], s[j])
  }

  /** No two entries share moment and id. */
  ghost predicate DistinctKeys(s: seq<Entry>) {
    forall i, j | 0 <= i < j < |s| :: CursorOf(s[i]) != CursorOf(s[j])
  }

  // ---------------------------------------------------------------- reading a page

  function Filter(s: seq<Entry>, cursor: Option<Cursor>): seq<Entry> {
    if s == [] then []
    else (if Below(s[0], cursor) then [s[0]] else []) + Filter(s[1..], cursor)
  }

  function Insert(e: Entry, s: seq<Entry>): seq<Entry> {
    if s == [] || Newer(e, s[0]) then [e] + s else [s[0]] + Insert(e, s[1..])
  }

  function Sort(s: seq<Entry>): seq<Entry> {
    if s == [] then [] else Insert(s[0], Sort(s[1..]))
  }

  /** The rows of one table below the cursor, newest first, at most n. */
  function Read(table: seq<Entry>, cursor: Option<Cursor>, n: nat): seq<Entry> {
    Take(Sort(Filter(table, cursor)), n)
  }

  const MAX_PAGE := 50

  /** What was asked for, from one to fifty. */
  function Clamp(limit: int): nat {
    if limit < 1 then 1 else if limit > MAX_PAGE then MAX_PAGE else limit
  }

  datatype Page = Page(items: seq<Entry>, next: Option<Cursor>)

  function PageOf(jobs: seq<Entry>, asks: seq<Entry>, cursor: Option<Cursor>, asked: int): Page {
    var limit := Clamp(asked);
    var merged := Sort(Read(jobs, cursor, limit + 1) + Read(asks, cursor, limit + 1));
    var items := Take(merged, limit);
    Page(items, if |merged| > limit then Some(CursorOf(items[|items| - 1])) else None)
  }

  // ---------------------------------------------------------------- sorting

  lemma {:induction false} InsertSorts(e: Entry, s: seq<Entry>)
    requires Descending(s) && forall i | 0 <= i < |s| :: CursorOf(s[i]) != CursorOf(e)
    ensures Descending(Insert(e, s)) && multiset(Insert(e, s)) == multiset(s) + multiset{e}
  {
    if s == [] || Newer(e, s[0]) {
      assert forall j | 0 <= j < |s| :: Newer(e, s[j]);
    } else {
      InsertSorts(e, s[1..]);
      var rest := Insert(e, s[1..]);
      assert s == [s[0]] + s[1..];
      forall j | 0 <= j < |rest| ensures Newer(s[0], rest[j]) {
        assert rest[j] in multiset(rest);
        assert rest[j] in multiset(s[1..]) || rest[j] == e;
        assert rest[j] in s[1..] || rest[j] == e;
      }
    }
  }

  lemma {:induction false} SortSorts(s: seq<Entry>)
    requires DistinctKeys(s)
    ensures Descending(Sort(s)) && multiset(Sort(s)) == multiset(s)
  {
    if s != [] {
      SortSorts(s[1..]);
      var rest := Sort(s[1..]);
      forall i | 0 <= i < |rest| ensures CursorOf(rest[i]) != CursorOf(s[0]) {
        assert rest[i] in multiset(s[1..]);
        assert rest[i] in s[1..];
      }
      InsertSorts(s[0], rest);
      assert s == [s[0]] + s[1..];
    }
  }

  /** Two descending lists of the same entries are the same list. */
  lemma {:induction false} DescendingIsUnique(a: seq<Entry>, b: seq<Entry>)
    requires Descending(a) && Descending(b) && multiset(a) == multiset(b)
    ensures a == b
  {
    if a == [] || b == [] {
      assert |multiset(a)| == |a| && |multiset(b)| == |b|;
    } else {
      HeadsAgree(a, b);
      assert a == [a[0]] + a[1..] && b == [b[0]] + b[1..];
      assert multiset(a[1..]) == multiset(a) - multiset{a[0]};
      assert multiset(b[1..]) == multiset(b) - multiset{b[0]};
      DescendingIsUnique(a[1..], b[1..]);
    }
  }

  lemma HeadIsNewest(s: seq<Entry>, e: Entry)
    requires Descending(s) && e in s
    ensures e == s[0] || Newer(s[0], e)
  {
  }

  lemma HeadsAgree(a: seq<Entry>, b: seq<Entry>)
    requires a != [] && b != [] && Descending(a) && Descending(b) && multiset(a) == multiset(b)
    ensures a[0] == b[0]
  {
    assert a[0] in multiset(a) && b[0] in multiset(b);
    assert a[0] in b && b[0] in a;
    HeadIsNewest(a, b[0]);
    HeadIsNewest(b, a[0]);
  }

  // ---------------------------------------------------------------- the true page

  function Merge(a: seq<Entry>, b: seq<Entry>): seq<Entry>
    decreases |a| + |b|
  {
    if a == [] then b
    else if b == [] then a
    else if Newer(a[0], b[0]) then [a[0]] + Merge(a[1..], b)
    else [b[0]] + Merge(a, b[1..])
  }

  ghost predicate Apart(a: seq<Entry>, b: seq<Entry>) {
    forall i, j | 0 <= i < |a| && 0 <= j < |b| :: CursorOf(a[i]) != CursorOf(b[j])
  }

  lemma HeadAndTail(s: seq<Entry>)
    requires s != []
    ensures multiset(s) == multiset{s[0]} + multiset(s[1..])
  {
    assert s == [s[0]] + s[1..];
  }

  lemma OneMore(e: Entry, s: seq<Entry>)
    ensures multiset([e] + s) == multiset{e} + multiset(s)
  {
  }

  lemma {:induction false} MergeElements(a: seq<Entry>, b: seq<Entry>)
    ensures multiset(Merge(a, b)) == multiset(a) + multiset(b)
    decreases |a| + |b|
  {
    if a != [] && b != [] {
      HeadAndTail(a);
      HeadAndTail(b);
      if Newer(a[0], b[0]) {
        MergeElements(a[1..], b);
        OneMore(a[0], Merge(a[1..], b));
      } else {
        MergeElements(a, b[1..]);
        OneMore(b[0], Merge(a, b[1..]));
      }
    }
  }

  lemma {:induction false} MergeSorts(a: seq<Entry>, b: seq<Entry>)
    requires Descending(a) && Descending(b) && Apart(a, b)
    ensures Descending(Merge(a, b))
    decreases |a| + |b|
  {
    if a != [] && b != [] {
      var (first, x, y) := if Newer(a[0], b[0]) then (a[0], a[1..], b) else (b[0], a, b[1..]);
      MergeSorts(x, y);
      MergeElements(x, y);
      var rest := Merge(x, y);
      forall j | 0 <= j < |rest| ensures Newer(first, rest[j]) {
        assert rest[j] in multiset(x) + multiset(y);
        assert rest[j] in x || rest[j] in y;
        NewestOfBoth(a, b, rest[j]);
      }
    }
  }

  lemma NewestOfBoth(a: seq<Entry>, b: seq<Entry>, e: Entry)
    requires Descending(a) && Descending(b) && Apart(a, b) && a != [] && b != []
    requires if Newer(a[0], b[0]) then e in a[1..] || e in b else e in a || e in b[1..]
    ensures Newer(if Newer(a[0], b[0]) then a[0] else b[0], e)
  {
    assert CursorOf(a[0]) != CursorOf(b[0]);
  }

  lemma TakeFacts(s: seq<Entry>, t: seq<Entry>, n: nat)
    requires n > 0 && Take(s, n) == Take(t, n)
    ensures s == [] <==> t == []
    ensures s != [] ==> s[0] == t[0] && Take(s[1..], n - 1) == Take(t[1..], n - 1)
    ensures Take(s, n - 1) == Take(t, n - 1)
  {
    assert s != [] ==> Take(s, n)[0] == s[0];
    assert t != [] ==> Take(t, n)[0] == t[0];
    if s != [] {
      assert Take(s[1..], n - 1) == Take(s, n)[1..] && Take(t[1..], n - 1) == Take(t, n)[1..];
    }
    assert Take(s, n - 1) == Take(Take(s, n), n - 1) && Take(t, n - 1) == Take(Take(t, n), n - 1);
  }

  lemma TakeCons(e: Entry, s: seq<Entry>, n: nat)
    requires n > 0
    ensures Take([e] + s, n) == [e] + Take(s, n - 1)
  {
  }

  /** The first n of a merge depend only on the first n of each side. */
  lemma {:induction false} MergeNeedsOnlyTheTops(a: seq<Entry>, b: seq<Entry>, x: seq<Entry>, y: seq<Entry>, n: nat)
    requires Take(a, n) == Take(x, n) && Take(b, n) == Take(y, n)
    ensures Take(Merge(a, b), n) == Take(Merge(x, y), n)
    decreases n
  {
    if n > 0 {
      TakeFacts(a, x, n);
      TakeFacts(b, y, n);
      if a != [] && b != [] {
        if Newer(a[0], b[0]) {
          MergeNeedsOnlyTheTops(a[1..], b, x[1..], y, n - 1);
          TakeCons(a[0], Merge(a[1..], b), n);
          TakeCons(a[0], Merge(x[1..], y), n);
        } else {
          MergeNeedsOnlyTheTops(a, b[1..], x, y[1..], n - 1);
          TakeCons(b[0], Merge(a, b[1..]), n);
          TakeCons(b[0], Merge(x, y[1..]), n);
        }
      }
    }
  }

  /** Whether a merge has more than n elements shows in the tops of n + 1. */
  lemma MergeLength(a: seq<Entry>, b: seq<Entry>)
    ensures |Merge(a, b)| == |a| + |b|
  {
    MergeElements(a, b);
    assert |Merge(a, b)| == |multiset(Merge(a, b))| == |multiset(a) + multiset(b)|;
  }

  lemma {:induction false} FilterIs(s: seq<Entry>, cursor: Option<Cursor>, e: Entry)
    ensures multiset(Filter(s, cursor))[e] == if Below(e, cursor) then multiset(s)[e] else 0
  {
    if s != [] {
      FilterIs(s[1..], cursor, e);
      assert s == [s[0]] + s[1..];
    }
  }

  lemma {:induction false} FilterConcat(a: seq<Entry>, b: seq<Entry>, cursor: Option<Cursor>)
    ensures Filter(a + b, cursor) == Filter(a, cursor) + Filter(b, cursor)
  {
    if a == [] {
      assert a + b == b;
    } else {
      assert (a + b)[1..] == a[1..] + b && (a + b)[0] == a[0];
      FilterConcat(a[1..], b, cursor);
      var head := if Below(a[0], cursor) then [a[0]] else [];
      assert head + (Filter(a[1..], cursor) + Filter(b, cursor)) == head + Filter(a[1..], cursor) + Filter(b, cursor);
    }
  }

  lemma {:induction false} FilterDistinct(s: seq<Entry>, cursor: Option<Cursor>)
    requires DistinctKeys(s)
    ensures DistinctKeys(Filter(s, cursor))
    ensures forall i | 0 <= i < |Filter(s, cursor)| :: Filter(s, cursor)[i] in s && Below(Filter(s, cursor)[i], cursor)
  {
    if s != [] {
      FilterDistinct(s[1..], cursor);
      var rest := Filter(s[1..], cursor);
      forall i | 0 <= i < |rest| ensures CursorOf(rest[i]) != CursorOf(s[0]) {
        assert rest[i] in s[1..];
      }
    }
  }

  /** Sorting two lists together is merging them sorted. */
  lemma SortOfConcat(a: seq<Entry>, b: seq<Entry>)
    requires DistinctKeys(a + b)
    ensures Sort(a + b) == Merge(Sort(a), Sort(b))
  {
    ConcatParts(a, b);
    SortSorts(a);
    SortSorts(b);
    SortSorts(a + b);
    forall i, j | 0 <= i < |Sort(a)| && 0 <= j < |Sort(b)| ensures CursorOf(Sort(a)[i]) != CursorOf(Sort(b)[j]) {
      assert Sort(a)[i] in multiset(a) && Sort(b)[j] in multiset(b);
      assert Sort(a)[i] in a && Sort(b)[j] in b;
    }
    MergeSorts(Sort(a), Sort(b));
    MergeElements(Sort(a), Sort(b));
    DescendingIsUnique(Sort(a + b), Merge(Sort(a), Sort(b)));
  }

  lemma ConcatParts(a: seq<Entry>, b: seq<Entry>)
    requires DistinctKeys(a + b)
    ensures DistinctKeys(a) && DistinctKeys(b) && Apart(a, b)
  {
    assert forall i | 0 <= i < |a| :: (a + b)[i] == a[i];
    assert forall j | 0 <= j < |b| :: (a + b)[|a| + j] == b[j];
  }

  /** A descending list is its own sorting. */
  lemma SortOfSorted(s: seq<Entry>)
    requires Descending(s)
    ensures Sort(s) == s
  {
    forall i, j | 0 <= i < j < |s| ensures CursorOf(s[i]) != CursorOf(s[j]) {
      assert Newer(s[i], s[j]);
    }
    SortSorts(s);
    DescendingIsUnique(Sort(s), s);
  }

  /** All entries of the thread below the cursor, newest first. */
  function History(jobs: seq<Entry>, asks: seq<Entry>, cursor: Option<Cursor>): seq<Entry> {
    Sort(Filter(jobs + asks, cursor))
  }

  lemma TopsMerge(a: seq<Entry>, b: seq<Entry>, n: nat)
    requires Descending(a) && Descending(b) && Apart(a, b)
    ensures Sort(Take(a, n) + Take(b, n)) == Merge(Take(a, n), Take(b, n))
  {
    var x, y := Take(a, n), Take(b, n);
    forall i, j | 0 <= i < j < |x + y| ensures CursorOf((x + y)[i]) != CursorOf((x + y)[j]) {
      assert i < |x| ==> (x + y)[i] == a[i];
      assert i >= |x| ==> (x + y)[i] == b[i - |x|];
      assert j < |x| ==> (x + y)[j] == a[j];
      assert j >= |x| ==> (x + y)[j] == b[j - |x|];
      assert i < j < |x| ==> Newer(a[i], a[j]);
      assert |x| <= i ==> Newer(b[i - |x|], b[j - |x|]);
    }
    SortOfConcat(x, y);
    SortOfSorted(x);
    SortOfSorted(y);
  }

  /** A page is the true top of the union of both tables below the cursor, and it says there is more exactly when
      there is. */
  lemma PageIsTheTrueTop(jobs: seq<Entry>, asks: seq<Entry>, cursor: Option<Cursor>, asked: int)
    requires DistinctKeys(jobs + asks)
    ensures var p, all := PageOf(jobs, asks, cursor, asked), History(jobs, asks, cursor);
      && p.items == Take(all, Clamp(asked))
      && p.next == if |all| > Clamp(asked) then Some(CursorOf(all[Clamp(asked) - 1])) else None
  {
    var limit := Clamp(asked);
    FilterConcat(jobs, asks, cursor);
    FilterDistinct(jobs + asks, cursor);
    var fj, fa := Filter(jobs, cursor), Filter(asks, cursor);
    SortOfConcat(fj, fa);
    SortedParts(fj, fa);
    var a, b := Sort(fj), Sort(fa);
    TopsMerge(a, b, limit + 1);
    TopsAreEnough(a, b, limit);
  }

  /** Two lists without a key in common, sorted each by itself. */
  lemma SortedParts(x: seq<Entry>, y: seq<Entry>)
    requires DistinctKeys(x + y)
    ensures Descending(Sort(x)) && Descending(Sort(y)) && Apart(Sort(x), Sort(y))
  {
    ConcatParts(x, y);
    SortSorts(x);
    SortSorts(y);
    var a, b := Sort(x), Sort(y);
    forall i, j | 0 <= i < |a| && 0 <= j < |b| ensures CursorOf(a[i]) != CursorOf(b[j]) {
      assert a[i] in multiset(x) && b[j] in multiset(y);
      assert a[i] in x && b[j] in y;
    }
  }

  lemma TopsAreEnough(a: seq<Entry>, b: seq<Entry>, limit: nat)
    requires limit > 0
    ensures var merged, all := Merge(Take(a, limit + 1), Take(b, limit + 1)), Merge(a, b);
      && Take(merged, limit) == Take(all, limit)
      && (|merged| > limit <==> |all| > limit)
      && (|all| > limit ==> Take(merged, limit)[limit - 1] == all[limit - 1])
  {
    var x, y := Take(a, limit + 1), Take(b, limit + 1);
    MergeNeedsOnlyTheTops(a, b, x, y, limit + 1);
    MergeLength(a, b);
    MergeLength(x, y);
    var merged, all := Merge(x, y), Merge(a, b);
    assert Take(merged, limit) == Take(Take(merged, limit + 1), limit);
    assert Take(all, limit) == Take(Take(all, limit + 1), limit);
  }

  // ---------------------------------------------------------------- the whole walk

  lemma HistoryElements(jobs: seq<Entry>, asks: seq<Entry>, cursor: Option<Cursor>)
    requires DistinctKeys(jobs + asks)
    ensures Descending(History(jobs, asks, cursor))
    ensures forall e: Entry :: multiset(History(jobs, asks, cursor))[e]
                            == if Below(e, cursor) then multiset(jobs + asks)[e] else 0
  {
    var s := jobs + asks;
    FilterDistinct(s, cursor);
    SortSorts(Filter(s, cursor));
    forall e: Entry ensures multiset(Filter(s, cursor))[e] == if Below(e, cursor) then multiset(s)[e] else 0 {
      FilterIs(s, cursor, e);
    }
  }

  lemma SuffixDescends(s: seq<Entry>, k: nat)
    requires Descending(s) && k <= |s|
    ensures Descending(s[k..])
  {
  }

  /** Below the last entry of a page stands exactly the rest of the history. */
  lemma RestOfHistory(jobs: seq<Entry>, asks: seq<Entry>, cursor: Option<Cursor>, k: nat)
    requires DistinctKeys(jobs + asks) && 0 < k <= |History(jobs, asks, cursor)|
    ensures var all := History(jobs, asks, cursor);
      History(jobs, asks, Some(CursorOf(all[k - 1]))) == all[k..]
  {
    var all := History(jobs, asks, cursor);
    var below := Some(CursorOf(all[k - 1]));
    HistoryElements(jobs, asks, cursor);
    HistoryElements(jobs, asks, below);
    var rest := History(jobs, asks, below);
    assert multiset(all)[all[k - 1]] > 0;
    forall e: Entry ensures multiset(all[k..])[e] == multiset(rest)[e] {
      RestCount(all, k, e, jobs + asks, cursor);
    }
    SuffixDescends(all, k);
    assert multiset(all[k..]) == multiset(rest);
    DescendingIsUnique(rest, all[k..]);
  }

  lemma RestCount(all: seq<Entry>, k: nat, e: Entry, s: seq<Entry>, cursor: Option<Cursor>)
    requires Descending(all) && 0 < k <= |all|
    requires multiset(all)[e] == if Below(e, cursor) then multiset(s)[e] else 0
    requires Below(all[k - 1], cursor)
    ensures multiset(all[k..])[e] == if Below(e, Some(CursorOf(all[k - 1]))) then multiset(s)[e] else 0
  {
    assert all == all[..k] + all[k..];
    if Below(e, Some(CursorOf(all[k - 1]))) {
      forall i | 0 <= i < k ensures all[i] != e {
        assert i < k - 1 ==> Newer(all[i], all[k - 1]);
      }
      assert e !in all[..k];
    } else {
      forall i | k <= i < |all| ensures all[i] != e {
        assert Newer(all[k - 1], all[i]);
      }
      assert e !in all[k..];
    }
  }

  /** Reading page after page, from a cursor until no next one is given. */
  function Walk(jobs: seq<Entry>, asks: seq<Entry>, cursor: Option<Cursor>, asked: int, fuel: nat): seq<Entry>
    decreases fuel
  {
    var p := PageOf(jobs, asks, cursor, asked);
    if fuel == 0 || p.next.None? then p.items else p.items + Walk(jobs, asks, p.next, asked, fuel - 1)
  }

  lemma {:induction false} WalkReadsTheHistory(jobs: seq<Entry>, asks: seq<Entry>, cursor: Option<Cursor>, asked: int,
                                               fuel: nat)
    requires DistinctKeys(jobs + asks) && |History(jobs, asks, cursor)| <= fuel
    ensures Walk(jobs, asks, cursor, asked, fuel) == History(jobs, asks, cursor)
    decreases fuel
  {
    var all, k := History(jobs, asks, cursor), Clamp(asked);
    PageIsTheTrueTop(jobs, asks, cursor, asked);
    if |all| <= k {
      LastPage(jobs, asks, cursor, asked, fuel);
    } else {
      var next := Some(CursorOf(all[k - 1]));
      RestOfHistory(jobs, asks, cursor, k);
      WalkReadsTheHistory(jobs, asks, next, asked, fuel - 1);
      MorePages(jobs, asks, cursor, asked, fuel, all[..k], next);
      assert all == all[..k] + all[k..];
    }
  }

  lemma LastPage(jobs: seq<Entry>, asks: seq<Entry>, cursor: Option<Cursor>, asked: int, fuel: nat)
    requires PageOf(jobs, asks, cursor, asked).next.None?
    ensures Walk(jobs, asks, cursor, asked, fuel) == PageOf(jobs, asks, cursor, asked).items
  {
  }

  lemma MorePages(jobs: seq<Entry>, asks: seq<Entry>, cursor: Option<Cursor>, asked: int, fuel: nat, items: seq<Entry>,
                  next: Option<Cursor>)
    requires fuel > 0 && PageOf(jobs, asks, cursor, asked) == Page(items, next) && next.Some?
    ensures Walk(jobs, asks, cursor, asked, fuel) == items + Walk(jobs, asks, next, asked, fuel - 1)
  {
  }

  /** Without a cursor the history is everything. */
  lemma WholeHistory(jobs: seq<Entry>, asks: seq<Entry>)
    requires DistinctKeys(jobs + asks)
    ensures var all := History(jobs, asks, None);
      Descending(all) && multiset(all) == multiset(jobs + asks) && |all| == |jobs| + |asks|
  {
    var all := History(jobs, asks, None);
    HistoryElements(jobs, asks, None);
    assert multiset(all) == multiset(jobs + asks);
    assert |multiset(all)| == |all| && |multiset(jobs + asks)| == |jobs + asks|;
  }

  /** For any page size, walking from no cursor until no next one is given lists every job and ask of the thread
      exactly once, in strictly descending order; it takes at most one page per entry. */
  lemma AWalkListsEverythingOnce(jobs: seq<Entry>, asks: seq<Entry>, asked: int, walk: seq<Entry>)
    requires DistinctKeys(jobs + asks) && walk == Walk(jobs, asks, None, asked, |jobs| + |asks|)
    ensures Descending(walk) && multiset(walk) == multiset(jobs + asks)
  {
    WholeHistory(jobs, asks);
    assert walk == History(jobs, asks, None) by {
      WalkReadsTheHistory(jobs, asks, None, asked, |jobs| + |asks|);
    }
  }

  /** Entries that arrive above the cursor while someone walks do not disturb the pages below it. */
  lemma ArrivalsAboveDoNotDisturb(jobs: seq<Entry>, asks: seq<Entry>, moreJobs: seq<Entry>, moreAsks: seq<Entry>,
                                  cursor: Cursor, asked: int)
    requires forall i | 0 <= i < |moreJobs| :: !Below(moreJobs[i], Some(cursor))
    requires forall i | 0 <= i < |moreAsks| :: !Below(moreAsks[i], Some(cursor))
    ensures PageOf(moreJobs + jobs, moreAsks + asks, Some(cursor), asked) == PageOf(jobs, asks, Some(cursor), asked)
  {
    FilterConcat(moreJobs, jobs, Some(cursor));
    FilterConcat(moreAsks, asks, Some(cursor));
    NothingBelow(moreJobs, cursor);
    NothingBelow(moreAsks, cursor);
    assert [] + Filter(jobs, Some(cursor)) == Filter(jobs, Some(cursor));
    assert [] + Filter(asks, Some(cursor)) == Filter(asks, Some(cursor));
  }

  lemma {:induction false} NothingBelow(s: seq<Entry>, cursor: Cursor)
    requires forall i | 0 <= i < |s| :: !Below(s[i], Some(cursor))
    ensures Filter(s, Some(cursor)) == []
  {
    if s != [] {
      NothingBelow(s[1..], cursor);
    }
  }
}
