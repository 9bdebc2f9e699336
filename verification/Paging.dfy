/** Keyset pagination of the list endpoints, followed by a client from page to page. */
module Paging {
  import opened Prelude
  import opened Ordered
  import opened PageCursor

  const MAX_PAGE_LIMIT: int := 500

  /** Notes are listed newest first, everything else oldest first. */
  datatype Direction = NewestFirst | OldestFirst

  predicate Older(a: Cursor, b: Cursor) {
    a.ts < b.ts || (a.ts == b.ts && a.id < b.id)
  }

  function Precedes(d: Direction): (Cursor, Cursor) -> bool {
    if d.OldestFirst? then (a, b) => Older(a, b) else (a, b) => Older(b, a)
  }

  lemma PrecedesIsTotal(d: Direction)
    ensures TotalOrder(Precedes(d))
  {
  }

  /** `ListQuery::resolve` clamps the limit. */
  function Clamp(limit: int): (l: nat)
    ensures 1 <= l <= MAX_PAGE_LIMIT
  {
    if limit < 1 then 1 else if limit > MAX_PAGE_LIMIT then MAX_PAGE_LIMIT else limit
  }

  /** The visible rows past the cursor. */
  function Remaining(rows: set<Cursor>, d: Direction, cursor: Option<Cursor>): set<Cursor> {
    if cursor.None? then rows else Beyond(rows, Precedes(d), cursor.value)
  }

  /** A page of rows and the row to go on from; without a limit it is everything there is. */
  datatype Page = Page(items: seq<Cursor>, next: Option<Cursor>)

  function PageAt(rows: set<Cursor>, d: Direction, limit: Option<int>, cursor: Option<Cursor>): Page {
    PrecedesIsTotal(d);
    var all := Sorted(Remaining(rows, d, cursor), Precedes(d));
    if limit.None? then Page(all, None)
    else
      var items := FirstOf(all, Clamp(limit.value));
      Page(items, if |items| >= Clamp(limit.value) then Some(items[|items| - 1]) else None)
  }

  /** One request: a cursor that does not decode is a bad request. */
  function Fetch(rows: set<Cursor>, d: Direction, limit: Option<int>, token: Option<string>): Option<(seq<Cursor>,
                 Option<string>)> {
    var cursor := if token.None? then None else Decode(token.value);
    if token.Some? && cursor.None? then None
    else
      var page := PageAt(rows, d, limit, cursor);
      Some((page.items, Token(page.next)))
  }

  function Token(cursor: Option<Cursor>): Option<string> {
    if cursor.None? then None else Some(Encode(cursor.value))
  }

  /** A client's pages when its requests meet the tables one after the other, and whether it got
      to a page without a next cursor. */
  datatype Listing = Listing(pages: seq<seq<Cursor>>, finished: bool)

  function Follow(tables: seq<set<Cursor>>, d: Direction, limit: Option<int>, token: Option<string>): Listing
    decreases |tables|
  {
    if tables == [] then Listing([], false)
    else
      var page := Fetch(tables[0], d, limit, token);
      if page.None? then Listing([], false)
      else if page.value.1.None? then Listing([page.value.0], true)
      else
        var rest := Follow(tables[1..], d, limit, page.value.1);
        Listing([page.value.0] + rest.pages, rest.finished)
  }

  function Concat(pages: seq<seq<Cursor>>): seq<Cursor>
    decreases |pages|
  {
    if pages == [] then [] else pages[0] + Concat(pages[1..])
  }

  /** One page of a client's trail and the rest of it. */
  lemma FollowOnce(tables: seq<set<Cursor>>, d: Direction, limit: Option<int>, cursor: Option<Cursor>)
    requires tables != []
    ensures var page := PageAt(tables[0], d, limit, cursor);
      Follow(tables, d, limit, Token(cursor))
      == if page.next.None? then Listing([page.items], true)
         else
           var rest := Follow(tables[1..], d, limit, Token(page.next));
           Listing([page.items] + rest.pages, rest.finished)
  {
    if cursor.Some? {
      CursorRoundTrip(cursor.value);
    }
  }

  lemma ConcatOnce(page: seq<Cursor>, pages: seq<seq<Cursor>>)
    ensures Concat([page]) == page && Concat([page] + pages) == page + Concat(pages)
  {
    assert ([page] + pages)[1..] == pages;
  }

  /** What one page holds: the first of the remaining rows, all of them when there is no next
      cursor, and a next cursor that is its last item. */
  lemma PageFacts(rows: set<Cursor>, d: Direction, limit: Option<int>, cursor: Option<Cursor>)
    ensures TotalOrder(Precedes(d))
    ensures var page := PageAt(rows, d, limit, cursor);
      var q := Sorted(Remaining(rows, d, cursor), Precedes(d));
      if page.next.None? then page.items == q && (limit.Some? ==> |q| < Clamp(limit.value))
      else
        && limit.Some? && Clamp(limit.value) <= |q| && page.items == q[..Clamp(limit.value)]
        && page.next.value == q[Clamp(limit.value) - 1]
  {
    PrecedesIsTotal(d);
  }

  lemma PrefixInOrder(q: seq<Cursor>, k: nat, lt: (Cursor, Cursor) -> bool)
    requires Ascending(q, lt) && 0 < k <= |q|
    ensures Ascending(q[..k], lt) && q[k - 1] in q[..k]
    ensures forall x | x in q[..k] :: x == q[k - 1] || lt(x, q[k - 1])
  {
    assert q[k - 1] == q[..k][k - 1];
    forall x | x in q[..k] ensures x == q[k - 1] || lt(x, q[k - 1]) {
      var i :| 0 <= i < k && q[i] == x;
    }
  }

  /** A page is in order, lies past the cursor and ends at the next one. */
  lemma PageInOrder(rows: set<Cursor>, d: Direction, limit: Option<int>, cursor: Option<Cursor>)
    ensures var page := PageAt(rows, d, limit, cursor);
      && Ascending(page.items, Precedes(d))
      && (cursor.Some? ==> forall x | x in page.items :: Precedes(d)(cursor.value, x))
      && (page.next.Some? ==> page.next.value in page.items)
      && (page.next.Some? ==> forall x | x in page.items :: x == page.next.value || Precedes(d)(x, page.next.value))
  {
    PageFacts(rows, d, limit, cursor);
    var left, page := Remaining(rows, d, cursor), PageAt(rows, d, limit, cursor);
    var q: seq<Cursor> := Sorted(left, Precedes(d));
    SortedListsTheSet(left, Precedes(d));
    if page.next.Some? {
      PrefixInOrder(q, Clamp(limit.value), Precedes(d));
    }
    forall x | x in page.items ensures x in left {
      assert x in q;
    }
  }

  /** A row of the table past the cursor is on the page, or past its end. */
  lemma PageMissesNothing(rows: set<Cursor>, d: Direction, limit: Option<int>, cursor: Option<Cursor>, x: Cursor)
    requires x in Remaining(rows, d, cursor)
    ensures var page := PageAt(rows, d, limit, cursor);
      x in page.items || (page.next.Some? && Precedes(d)(page.next.value, x))
  {
    PageFacts(rows, d, limit, cursor);
    var q := Sorted(Remaining(rows, d, cursor), Precedes(d));
    SortedListsTheSet(Remaining(rows, d, cursor), Precedes(d));
    var i :| 0 <= i < |q| && q[i] == x;
    var page := PageAt(rows, d, limit, cursor);
    if page.next.Some? && i < Clamp(limit.value) {
      assert page.items[i] == x;
    }
  }

  lemma JoinAscending(a: seq<Cursor>, b: seq<Cursor>, last: Cursor, d: Direction)
    requires Ascending(a, Precedes(d)) && Ascending(b, Precedes(d))
    requires forall x | x in a :: x == last || Precedes(d)(x, last)
    requires forall x | x in b :: Precedes(d)(last, x)
    ensures Ascending(a + b, Precedes(d))
  {
    PrecedesIsTotal(d);
    forall i, j | 0 <= i < j < |a + b| ensures Precedes(d)((a + b)[i], (a + b)[j]) {
      if i < |a| <= j {
        assert a[i] in a && b[j - |a|] in b;
      }
    }
  }

  /** However the table changes between requests, following the next cursor lists rows in strict
      order, so none twice, and only past the cursor. */
  lemma {:induction false} FollowingNeverRepeats(tables: seq<set<Cursor>>, d: Direction, limit: Option<int>,
                                                 cursor: Option<Cursor>)
    ensures var got := Concat(Follow(tables, d, limit, Token(cursor)).pages);
      Ascending(got, Precedes(d)) && (cursor.Some? ==> forall x | x in got :: Precedes(d)(cursor.value, x))
    decreases |tables|
  {
    if tables != [] {
      var page := PageAt(tables[0], d, limit, cursor);
      FollowOnce(tables, d, limit, cursor);
      PageInOrder(tables[0], d, limit, cursor);
      var rest := Follow(tables[1..], d, limit, Token(page.next));
      ConcatOnce(page.items, rest.pages);
      if page.next.Some? {
        var last := page.next.value;
        FollowingNeverRepeats(tables[1..], d, limit, page.next);
        JoinAscending(page.items, Concat(rest.pages), last, d);
        PrecedesIsTotal(d);
      }
    }
  }

  /** However the table changes, a row that stays in it is listed by the time the client has
      got to the last page. */
  lemma {:induction false} StableRowIsListed(tables: seq<set<Cursor>>, d: Direction, limit: Option<int>,
                                             cursor: Option<Cursor>, x: Cursor)
    requires Follow(tables, d, limit, Token(cursor)).finished
    requires forall i | 0 <= i < |tables| :: x in tables[i]
    requires cursor.Some? ==> Precedes(d)(cursor.value, x)
    ensures x in Concat(Follow(tables, d, limit, Token(cursor)).pages)
    decreases |tables|
  {
    var page := PageAt(tables[0], d, limit, cursor);
    FollowOnce(tables, d, limit, cursor);
    PageMissesNothing(tables[0], d, limit, cursor, x);
    var rest := Follow(tables[1..], d, limit, Token(page.next));
    ConcatOnce(page.items, rest.pages);
    if x !in page.items {
      StableRowIsListed(tables[1..], d, limit, page.next, x);
    }
  }

  // ---- A table that does not change ----

  predicate Constant(tables: seq<set<Cursor>>, rows: set<Cursor>) {
    forall i | 0 <= i < |tables| :: tables[i] == rows
  }

  /** Past the last item of a page lies what the page left over. */
  lemma LeftOver(rows: set<Cursor>, d: Direction, limit: int, cursor: Option<Cursor>)
    requires PageAt(rows, d, Some(limit), cursor).next.Some?
    ensures TotalOrder(Precedes(d))
    ensures var page := PageAt(rows, d, Some(limit), cursor);
      && Clamp(limit) <= |Sorted(Remaining(rows, d, cursor), Precedes(d))|
      && Sorted(Remaining(rows, d, page.next), Precedes(d))
            == Sorted(Remaining(rows, d, cursor), Precedes(d))[Clamp(limit)..]
  {
    var lt, left := Precedes(d), Remaining(rows, d, cursor);
    PageFacts(rows, d, Some(limit), cursor);
    PageInOrder(rows, d, Some(limit), cursor);
    RestOfListing(left, lt, Clamp(limit));
    var last := PageAt(rows, d, Some(limit), cursor).next.value;
    assert Beyond(left, lt, last) == Remaining(rows, d, Some(last));
  }

  /** Full pages, then a page that is not full. */
  function PageCount(n: nat, l: nat): (c: nat)
    requires l > 0
  {
    if n < l then 1 else 1 + PageCount(n - l, l)
  }

  lemma AtLeastOnce(k: int, l: int)
    requires l > 0
    ensures (k >= 1 ==> k * l >= l) && (k <= -1 ==> k * l <= -l)
  {
    if k >= 1 {
      assert k * l == l + (k - 1) * l;
    } else if k <= -1 {
      assert k * l == -l + (k + 1) * l;
    }
  }

  lemma QuotientIs(n: int, l: int, q: int, r: int)
    requires l > 0 && n == q * l + r && 0 <= r < l
    ensures n / l == q
  {
    var q', r' := n / l, n % l;
    assert (q - q') * l == r' - r;
    AtLeastOnce(q - q', l);
  }

  lemma {:induction false} PageCountIsQuotient(n: nat, l: nat)
    requires l > 0
    ensures PageCount(n, l) == n / l + 1
  {
    if n < l {
      QuotientIs(n, l, 0, n);
    } else {
      var q, r := (n - l) / l, (n - l) % l;
      PageCountIsQuotient(n - l, l);
      assert n == (q + 1) * l + r;
      QuotientIs(n, l, q + 1, r);
    }
  }

  /** The listing of a client that goes on from a cursor, and the number of its pages. */
  ghost predicate ListsAll(listing: Listing, rows: set<Cursor>, d: Direction, limit: int, cursor: Option<Cursor>)
    requires TotalOrder(Precedes(d))
  {
    var q := Sorted(Remaining(rows, d, cursor), Precedes(d));
    listing.finished && Concat(listing.pages) == q && |listing.pages| == PageCount(|q|, Clamp(limit))
  }

  lemma LastPage(rows: set<Cursor>, d: Direction, limit: int, cursor: Option<Cursor>)
    requires TotalOrder(Precedes(d)) && PageAt(rows, d, Some(limit), cursor).next.None?
    ensures ListsAll(Listing([PageAt(rows, d, Some(limit), cursor).items], true), rows, d, limit, cursor)
  {
    PageFacts(rows, d, Some(limit), cursor);
    ConcatOnce(PageAt(rows, d, Some(limit), cursor).items, []);
  }

  lemma NextPage(rows: set<Cursor>, d: Direction, limit: int, cursor: Option<Cursor>, rest: Listing)
    requires TotalOrder(Precedes(d)) && PageAt(rows, d, Some(limit), cursor).next.Some?
    requires ListsAll(rest, rows, d, limit, PageAt(rows, d, Some(limit), cursor).next)
    ensures ListsAll(Listing([PageAt(rows, d, Some(limit), cursor).items] + rest.pages, true), rows, d, limit, cursor)
  {
    var q, l := Sorted(Remaining(rows, d, cursor), Precedes(d)), Clamp(limit);
    var page := PageAt(rows, d, Some(limit), cursor);
    PageFacts(rows, d, Some(limit), cursor);
    LeftOver(rows, d, limit, cursor);
    ConcatOnce(page.items, rest.pages);
    assert q == q[..l] + q[l..];
  }

  lemma PagesLeft(rows: set<Cursor>, d: Direction, limit: int, cursor: Option<Cursor>)
    requires TotalOrder(Precedes(d)) && PageAt(rows, d, Some(limit), cursor).next.Some?
    ensures PageCount(|Sorted(Remaining(rows, d, cursor), Precedes(d))|, Clamp(limit))
            == 1 + PageCount(|Sorted(Remaining(rows, d, PageAt(rows, d, Some(limit), cursor).next), Precedes(d))|,
                  Clamp(limit))
  {
    LeftOver(rows, d, limit, cursor);
  }

  lemma {:induction false} FollowFrom(tables: seq<set<Cursor>>, rows: set<Cursor>, d: Direction, limit: int,
                                      cursor: Option<Cursor>)
    requires TotalOrder(Precedes(d)) && Constant(tables, rows)
    requires |tables| >= PageCount(|Sorted(Remaining(rows, d, cursor), Precedes(d))|, Clamp(limit))
    ensures ListsAll(Follow(tables, d, Some(limit), Token(cursor)), rows, d, limit, cursor)
    decreases |tables|
  {
    var page := PageAt(rows, d, Some(limit), cursor);
    assert tables[0] == rows;
    FollowOnce(tables, d, Some(limit), cursor);
    if page.next.None? {
      LastPage(rows, d, limit, cursor);
    } else {
      PagesLeft(rows, d, limit, cursor);
      FollowFrom(tables[1..], rows, d, limit, page.next);
      NextPage(rows, d, limit, cursor, Follow(tables[1..], d, Some(limit), Token(page.next)));
    }
  }

  /** Over an unchanging table of n rows the client gets every row exactly once, in order, and
      stops after exactly n / limit + 1 pages. */
  lemma {:induction false} FollowingListsEverything(tables: seq<set<Cursor>>, rows: set<Cursor>, d: Direction,
                                                    limit: int)
    requires Constant(tables, rows) && |tables| > |rows| / Clamp(limit)
    ensures var listing := Follow(tables, d, Some(limit), None);
      && listing.finished && |listing.pages| == |rows| / Clamp(limit) + 1
      && Ascending(Concat(listing.pages), Precedes(d)) && |Concat(listing.pages)| == |rows|
      && forall x :: x in Concat(listing.pages) <==> x in rows
  {
    PrecedesIsTotal(d);
    SortedListsTheSet(rows, Precedes(d));
    PageCountIsQuotient(|rows|, Clamp(limit));
    FollowFrom(tables, rows, d, limit, None);
  }

  // ---- Order and size of a page, told from the keys ----

  predicate NewerThan(a: Cursor, b: Cursor) {
    a.ts > b.ts || (a.ts == b.ts && a.id > b.id)
  }

  /** Notes come newest first, everything else oldest first, by timestamp and then id; and a page holds
      only rows on the far side of the cursor. */
  lemma PageOrderLaw(rows: set<Cursor>, d: Direction, limit: Option<int>, cursor: Option<Cursor>)
    ensures var items := PageAt(rows, d, limit, cursor).items;
      && (forall i, j | 0 <= i < j < |items| ::
            if d.NewestFirst? then NewerThan(items[i], items[j]) else NewerThan(items[j], items[i]))
      && (cursor.Some? ==> forall i | 0 <= i < |items| ::
            if d.NewestFirst? then NewerThan(cursor.value, items[i]) else NewerThan(items[i], cursor.value))
  {
    PageInOrder(rows, d, limit, cursor);
    var items := PageAt(rows, d, limit, cursor).items;
    forall i, j | 0 <= i < j < |items|
      ensures if d.NewestFirst? then NewerThan(items[i], items[j]) else NewerThan(items[j], items[i])
    {
      assert Precedes(d)(items[i], items[j]);
    }
    forall i | 0 <= i < |items| && cursor.Some?
      ensures if d.NewestFirst? then NewerThan(cursor.value, items[i]) else NewerThan(items[i], cursor.value)
    {
      assert Precedes(d)(cursor.value, items[i]);
    }
  }

  /** The rows on the far side of the cursor. */
  function Ahead(rows: set<Cursor>, d: Direction, cursor: Option<Cursor>): set<Cursor> {
    set r | r in rows && (cursor.Some? ==>
      if d.NewestFirst? then NewerThan(cursor.value, r) else NewerThan(r, cursor.value))
  }

  /** A page of a limit from 1 to 500 holds that many rows or all that are left; limits outside count as
      the nearest bound. There is a next cursor exactly when the page is full, and it is its last row. */
  lemma PageSizeLaw(rows: set<Cursor>, d: Direction, limit: int, cursor: Option<Cursor>)
    ensures var page, left := PageAt(rows, d, Some(limit), cursor), |Ahead(rows, d, cursor)|;
      var size := if limit < 1 then 1 else if limit > 500 then 500 else limit;
      && |page.items| == (if left < size then left else size)
      && (page.next.Some? <==> left >= size)
      && (page.next.Some? ==> page.items != [] && page.next.value == page.items[|page.items| - 1])
      && forall i | 0 <= i < |page.items| :: page.items[i] in Ahead(rows, d, cursor)
  {
    PageFacts(rows, d, Some(limit), cursor);
    ListingOfAhead(rows, d, cursor);
    assert Clamp(limit) == if limit < 1 then 1 else if limit > 500 then 500 else limit;
  }

  lemma ListingOfAhead(rows: set<Cursor>, d: Direction, cursor: Option<Cursor>)
    ensures TotalOrder(Precedes(d))
    ensures var q := Sorted(Remaining(rows, d, cursor), Precedes(d));
      |q| == |Ahead(rows, d, cursor)| && forall i | 0 <= i < |q| :: q[i] in Ahead(rows, d, cursor)
  {
    PrecedesIsTotal(d);
    RemainingIsAhead(rows, d, cursor);
    SortedListsTheSet(Remaining(rows, d, cursor), Precedes(d));
    var q: seq<Cursor> := Sorted(Remaining(rows, d, cursor), Precedes(d));
    forall i | 0 <= i < |q| ensures q[i] in Ahead(rows, d, cursor) {
      assert q[i] in q;
    }
  }

  lemma RemainingIsAhead(rows: set<Cursor>, d: Direction, cursor: Option<Cursor>)
    ensures Remaining(rows, d, cursor) == Ahead(rows, d, cursor)
  {
  }

  /** Without a limit one page holds everything on the far side and there is no next. A cursor that does
      not decode is refused, and nothing else is. */
  lemma FetchLaw(rows: set<Cursor>, d: Direction, limit: Option<int>, token: Option<string>)
    ensures Fetch(rows, d, limit, token).None? <==> token.Some? && Decode(token.value).None?
    ensures Fetch(rows, d, limit, token).Some? && limit.None? ==>
      var (items, next) := Fetch(rows, d, limit, token).value;
      var cursor := if token.None? then None else Decode(token.value);
      next.None? && |items| == |Ahead(rows, d, cursor)| && forall r :: r in items <==> r in Ahead(rows, d, cursor)
  {
    PrecedesIsTotal(d);
    var cursor := if token.None? then None else Decode(token.value);
    RemainingIsAhead(rows, d, cursor);
    SortedListsTheSet(Remaining(rows, d, cursor), Precedes(d));
  }
}
