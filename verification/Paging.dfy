/**
 All pages of a listing, one call each, on a snapshot in which rows of one time may come in any order and in another one
 at the next call: when they add up to the listing.
 */
module Paging {
  import opened Domain
  import opened Listing

  /** ceil(total / size): how many pages hold something. */
  function PageCount(total: nat, size: nat): nat
    requires size > 0
  {
    (total + size - 1) / size
  }

  /** The pages that consecutive calls return, each call on the order the database gives it. */
  function Pages(orders: seq<seq<Item>>, f: ListFilter): seq<Item> {
    if orders == [] then []
    else
      var page := Page(orders[|orders| - 1], f.(page := |orders|));
      Pages(orders[..|orders| - 1], f) + if page.Some? then page.value.rows else []
  }

  function WantedIn(table: set<Item>, f: ListFilter): set<Item> { set x | x in table && Wanted(f, x) }

  /** One order for each page, and all pages. */
  ghost predicate OrdersOf(orders: seq<seq<Item>>, table: set<Item>, f: ListFilter) {
    |orders| == PageCount(|WantedIn(table, f)|, PageSize(f)) && forall i :: 0 <= i < |orders| ==> OrderOf(orders[i], table)
  }

  /** Whatever order the database gives each call, the pages add up to the wanted rows, newest first, each of them once. */
  ghost predicate AlwaysCovers(table: set<Item>, f: ListFilter) {
    forall orders :: OrdersOf(orders, table, f) ==> OrderOf(Pages(orders, f), WantedIn(table, f))
  }

  function Later(rows: set<Item>, time: int): set<Item> { set x | x in rows && x.createdAt > time }

  /** The end of a page falls between two wanted rows of the same time: after some of them, and before others. */
  predicate SplitBy(table: set<Item>, f: ListFilter, time: int, page: nat) {
    |Later(WantedIn(table, f), time)| < page * PageSize(f) < |Later(WantedIn(table, f), time - 1)|
  }

  // ----- arithmetic of pages

  predicate OnPage(i: int, page: nat, size: nat) { page * size <= i < (page + 1) * size }

  lemma Below(a: nat, b: nat, k: nat)
    requires a <= b
    ensures a * k <= b * k && (a + 1) * k == a * k + k
  {}

  lemma Division(a: nat, k: nat)
    requires k > 0
    ensures a / k * k <= a < a / k * k + k
  {}

  /** Every row below the total is on one of the pages. */
  lemma PageOf(i: nat, total: nat, size: nat) returns (page: nat)
    requires i < total && size > 0
    ensures OnPage(i, page, size) && page < PageCount(total, size)
  {
    page := i / size;
    Division(i, size);
    Below(page, page, size);
    Division(total + size - 1, size);
    if PageCount(total, size) <= page { Below(PageCount(total, size), page, size); }
  }

  /** An offset inside a table of fewer than 2^63 rows does not wrap around. */
  lemma OffsetsFit(f: ListFilter, page: nat, total: nat)
    requires 1 <= page <= PageCount(total, PageSize(f)) && total <= MAX_INT
    ensures 0 <= (page - 1) * PageSize(f) < total && Offset(f.(page := page)) == (page - 1) * PageSize(f)
  {
    var size := PageSize(f);
    Below(page, (total + size - 1) / size, size);
    Below(page - 1, page, size);
    Division(total + size - 1, size);
    NotNegative(page - 1, size);
  }

  /** The pages reach to the last row. */
  lemma LastPageIsEnd(total: nat, size: nat)
    requires size > 0
    ensures PageCount(total, size) * size >= total
  {
    Division(total + size - 1, size);
  }

  /** Of two rows on different pages the later one's page begins between them. */
  lemma LaterPage(i: nat, j: nat, p: nat, q: nat, size: nat)
    requires OnPage(i, p, size) && OnPage(j, q, size) && i < j && p != q
    ensures i < q * size <= j
  {
    if q < p { Below(q + 1, p, size); } else { Below(p + 1, q, size); }
  }

  // ----- what stands where

  lemma {:induction false} SamePageSize(order: seq<Item>, f: ListFilter, page: int)
    ensures Matching(order, f.(page := page)) == Matching(order, f)
  {
    if order != [] { SamePageSize(order[..|order| - 1], f, page); }
  }

  function Least(a: int, b: int): int { if a <= b then a else b }

  /** The pages before the last, and then the last. */
  lemma OneMorePage(orders: seq<seq<Item>>, f: ListFilter, total: nat)
    requires orders != [] && |Matching(orders[|orders| - 1], f)| == total <= MAX_INT && |orders| <= PageCount(total, PageSize(f))
    ensures var n := |orders| - 1;
      n * PageSize(f) < total && Pages(orders, f) == Pages(orders[..n], f) + Slice(Matching(orders[n], f), n * PageSize(f), PageSize(f))
  {
    OffsetsFit(f, |orders|, total);
    SamePageSize(orders[|orders| - 1], f, |orders|);
  }

  lemma AfterSlice(front: seq<Item>, rows: seq<Item>, size: nat)
    requires |front| < |rows|
    ensures var all := front + Slice(rows, |front|, size);
      |all| == Least(|front| + size, |rows|) && forall i :: |front| <= i < |all| ==> all[i] == rows[i]
  {}

  /** Row i of all pages together is row i of the order that its own page was cut from. */
  lemma {:induction false} PagesAt(orders: seq<seq<Item>>, f: ListFilter, total: nat)
    requires forall i :: 0 <= i < |orders| ==> |Matching(orders[i], f)| == total
    requires total <= MAX_INT && |orders| <= PageCount(total, PageSize(f))
    ensures |Pages(orders, f)| == Least(|orders| * PageSize(f), total)
    ensures forall i, p: nat :: 0 <= i < |Pages(orders, f)| && p < |orders| && OnPage(i, p, PageSize(f)) ==>
      Pages(orders, f)[i] == Matching(orders[p], f)[i]
  {
    var n, size := |orders| - 1, PageSize(f);
    if orders != [] {
      var front := orders[..n];
      hide PageSize, Matching, PageCount, OnPage, Slice, Pages;
      PagesAt(front, f, total);
      OneMorePage(orders, f, total);
      AfterSlice(Pages(front, f), Matching(orders[n], f), size);
      Below(n, n, size);
      forall i, p: nat | 0 <= i < |Pages(orders, f)| && p < |orders| && OnPage(i, p, size)
        ensures Pages(orders, f)[i] == Matching(orders[p], f)[i]
      {
        if i < n * size {
          EarlierPage(i, p, n, size);
          assert Pages(front, f)[i] == Matching(front[p], f)[i];
        } else {
          ThisPage(i, p, n, size);
        }
      }
    } else {
      NoPages(f);
    }
  }

  lemma EarlierPage(i: int, p: nat, n: nat, size: nat)
    requires OnPage(i, p, size) && i < n * size && p <= n
    ensures p < n
  {}

  lemma ThisPage(i: int, p: nat, n: nat, size: nat)
    requires OnPage(i, p, size) && i >= n * size && p <= n
    ensures p == n
  {
    if p < n { Below(p + 1, n, size); }
  }

  // ----- times stand at the same places in every order

  /** Without its last row, an order is an order of the rest. */
  lemma WithoutLast(a: seq<Item>, rows: set<Item>)
    requires OrderOf(a, rows) && a != []
    ensures OrderOf(a[..|a| - 1], rows - {a[|a| - 1]}) && a[|a| - 1] in rows
    ensures forall x :: x in rows ==> x.createdAt >= a[|a| - 1].createdAt
  {
    var n := |a| - 1;
    assert a == a[..n] + [a[n]] && a[n] in a;
    forall x
      ensures x in a[..n] <==> x in rows - {a[n]}
    {
      if x in a[..n] {
        var i :| 0 <= i < n && a[..n][i] == x;
        assert a[i] == x && a[i] != a[n] && x in a;
      }
    }
  }

  lemma {:induction false} AsManyRows(a: seq<Item>, rows: set<Item>)
    requires OrderOf(a, rows)
    ensures |a| == |rows|
    decreases |a|
  {
    if a == [] {
      assert rows == {};
    } else {
      WithoutLast(a, rows);
      AsManyRows(a[..|a| - 1], rows - {a[|a| - 1]});
    }
  }

  /** The rows later than a time come first, as many as there are. */
  lemma {:induction false} LaterComeFirst(a: seq<Item>, rows: set<Item>, time: int)
    requires OrderOf(a, rows)
    ensures |Later(rows, time)| <= |a|
    ensures forall i :: 0 <= i < |a| ==> (i < |Later(rows, time)| <==> a[i].createdAt > time)
    decreases |a|
  {
    if a == [] {
      assert Later(rows, time) == {};
    } else {
      var n := |a| - 1;
      var last := a[n];
      WithoutLast(a, rows);
      AsManyRows(a, rows);
      LaterComeFirst(a[..n], rows - {last}, time);
      hide OrderOf;
      if last.createdAt > time {
        assert Later(rows, time) == rows;
      } else {
        assert Later(rows, time) == Later(rows - {last}, time);
      }
    }
  }

  /** A row of a time stands behind all later ones, and before all earlier ones. */
  lemma TimesPlace(a: seq<Item>, rows: set<Item>, i: nat)
    requires OrderOf(a, rows) && i < |a|
    ensures |Later(rows, a[i].createdAt)| <= i < |Later(rows, a[i].createdAt - 1)|
  {
    LaterComeFirst(a, rows, a[i].createdAt);
    LaterComeFirst(a, rows, a[i].createdAt - 1);
  }

  lemma OrderOfWanted(order: seq<Item>, table: set<Item>, f: ListFilter)
    requires OrderOf(order, table)
    ensures OrderOf(Matching(order, f), WantedIn(table, f)) && |Matching(order, f)| == |WantedIn(table, f)|
  {
    MatchingIsFilter(order, f);
    hide Wanted, Newest;
    AsManyRows(Matching(order, f), WantedIn(table, f));
  }

  // ----- no page splits a time

  /** What is needed of a row of all pages: the order that it comes from. */
  lemma RowOfPages(table: set<Item>, f: ListFilter, orders: seq<seq<Item>>, i: nat) returns (page: nat)
    requires OrdersOf(orders, table, f) && |WantedIn(table, f)| <= MAX_INT
    requires i < |WantedIn(table, f)|
    ensures page < |orders| && OnPage(i, page, PageSize(f)) && |Pages(orders, f)| == |WantedIn(table, f)|
    ensures var m := Matching(orders[page], f); OrderOf(m, WantedIn(table, f)) && i < |m| && Pages(orders, f)[i] == m[i]
  {
    var total := |WantedIn(table, f)|;
    page := PageOf(i, total, PageSize(f));
    AllPages(table, f, orders);
    OrderOfWanted(orders[page], table, f);
  }

  predicate StandsAt(a: seq<Item>, i: int, x: Item) { 0 <= i < |a| && a[i] == x }

  lemma AllPages(table: set<Item>, f: ListFilter, orders: seq<seq<Item>>)
    requires OrdersOf(orders, table, f) && |WantedIn(table, f)| <= MAX_INT
    ensures |Pages(orders, f)| == |WantedIn(table, f)|
    ensures forall i, p: nat :: 0 <= i < |Pages(orders, f)| && p < |orders| && OnPage(i, p, PageSize(f)) ==>
      StandsAt(Matching(orders[p], f), i, Pages(orders, f)[i])
  {
    var total := |WantedIn(table, f)|;
    forall i | 0 <= i < |orders|
      ensures |Matching(orders[i], f)| == total
    {
      OrderOfWanted(orders[i], table, f);
    }
    LastPageIsEnd(total, PageSize(f));
    hide OrderOf, OrdersOf, WantedIn, PageSize, Pages, Matching, PageCount, OnPage;
    PagesAt(orders, f, total);
  }

  /** Two rows of all pages stand in the right order, and are two. */
  lemma PairInOrder(table: set<Item>, f: ListFilter, orders: seq<seq<Item>>, i: nat, j: nat)
    requires OrdersOf(orders, table, f) && |WantedIn(table, f)| <= MAX_INT && i < j < |WantedIn(table, f)|
    requires forall time, page: nat :: !SplitBy(table, f, time, page)
    ensures |Pages(orders, f)| == |WantedIn(table, f)|
    ensures Pages(orders, f)[i].createdAt >= Pages(orders, f)[j].createdAt && Pages(orders, f)[i] != Pages(orders, f)[j]
  {
    var wanted := WantedIn(table, f);
    var p := RowOfPages(table, f, orders, i);
    var q := RowOfPages(table, f, orders, j);
    var a, b := Matching(orders[p], f), Matching(orders[q], f);
    var time := a[i].createdAt;
    TimesPlace(a, wanted, i);
    LaterComeFirst(b, wanted, time);
    LaterComeFirst(b, wanted, time - 1);
    assert !SplitBy(table, f, time, q);
    hide PageSize, OrdersOf, Pages, Matching, WantedIn;
    if p == q { assert a[i] != a[j]; } else { LaterPage(i, j, p, q, PageSize(f)); }
  }

  lemma SubsetAsLarge(a: set<Item>, b: set<Item>)
    requires a <= b && |a| == |b|
    ensures a == b
  {
    var rest := b - a;
    assert b == a + rest && |b| == |a| + |rest|;
  }

  /** As many different rows as there are, each of them among them: all of them. */
  lemma DifferentRowsCover(a: seq<Item>, rows: set<Item>)
    requires Newest(a) && |a| == |rows| && forall x :: x in a ==> x in rows
    ensures OrderOf(a, rows)
  {
    var own := set x | x in a;
    assert OrderOf(a, own);
    AsManyRows(a, own);
    SubsetAsLarge(own, rows);
  }

  lemma UnsplitCovers(table: set<Item>, f: ListFilter, orders: seq<seq<Item>>)
    requires OrdersOf(orders, table, f) && |WantedIn(table, f)| <= MAX_INT
    requires forall time, page: nat :: !SplitBy(table, f, time, page)
    ensures OrderOf(Pages(orders, f), WantedIn(table, f))
  {
    var all, wanted := Pages(orders, f), WantedIn(table, f);
    AllPages(table, f, orders);
    hide OrdersOf, Pages, WantedIn, SplitBy, PageSize;
    forall i, j | 0 <= i < j < |all|
      ensures all[i].createdAt >= all[j].createdAt && all[i] != all[j]
    {
      PairInOrder(table, f, orders, i, j);
    }
    forall x | x in all
      ensures x in wanted
    {
      var i :| 0 <= i < |all| && all[i] == x;
      var p := RowOfPages(table, f, orders, i);
      assert Matching(orders[p], f)[i] in Matching(orders[p], f);
    }
    DifferentRowsCover(all, wanted);
  }

  // ----- a page that splits a time

  lemma {:induction false} MatchingConcat(a: seq<Item>, b: seq<Item>, f: ListFilter)
    ensures Matching(a + b, f) == Matching(a, f) + Matching(b, f)
  {
    if b == [] {
      assert a + b == a;
    } else {
      MatchingConcat(a, b[..|b| - 1], f);
      assert (a + b)[..|a + b| - 1] == a + b[..|b| - 1];
    }
  }

  lemma MatchingOne(x: Item, f: ListFilter)
    ensures Matching([x], f) == if Wanted(f, x) then [x] else []
  {
    assert [x][..0] == [];
    assert Matching([x][..0], f) == [];
  }

  /** Where a wanted row stands among all rows. */
  lemma {:induction false} Place(order: seq<Item>, f: ListFilter, m: nat) returns (p: nat)
    requires m < |Matching(order, f)|
    ensures p < |order| && order[p] == Matching(order, f)[m] && Wanted(f, order[p]) && |Matching(order[..p], f)| == m
  {
    var front := order[..|order| - 1];
    if m < |Matching(front, f)| {
      p := Place(front, f, m);
      assert order[..p] == front[..p];
    } else {
      p := |order| - 1;
    }
  }

  /** Two rows of one time change places. */
  function Swapped(order: seq<Item>, p: nat, q: nat): seq<Item>
    requires p < q < |order|
  {
    order[p := order[q]][q := order[p]]
  }

  lemma SwappedIsOrder(order: seq<Item>, table: set<Item>, p: nat, q: nat)
    requires p < q < |order| && OrderOf(order, table) && order[p].createdAt == order[q].createdAt
    ensures OrderOf(Swapped(order, p, q), table)
  {
    var b := Swapped(order, p, q);
    forall x
      ensures x in b <==> x in order
    {
      if x in order {
        var i :| 0 <= i < |order| && order[i] == x;
        assert b[if i == p then q else if i == q then p else i] == x;
      }
    }
  }

  /** In the swapped order, the two wanted neighbours have changed places too. */
  lemma SwappedMatching(order: seq<Item>, f: ListFilter, p: nat, q: nat, m: nat)
    requires p < q < |order| && Wanted(f, order[p]) && Wanted(f, order[q])
    requires |Matching(order[..p], f)| == m && |Matching(order[..q], f)| == m + 1
    ensures m + 1 < |Matching(Swapped(order, p, q), f)| && Matching(Swapped(order, p, q), f)[m + 1] == order[p]
  {
    var a, between, rest := order[..p], order[p + 1..q], order[q + 1..];
    var x, y := order[p], order[q];
    assert order[..q] == (a + [x]) + between;
    assert Swapped(order, p, q) == (((a + [y]) + between) + [x]) + rest;
    hide Wanted, Swapped;
    MatchingConcat(a + [x], between, f);
    MatchingConcat(a, [x], f);
    MatchingOne(x, f);
    MatchingOne(y, f);
    MatchingConcat(((a + [y]) + between) + [x], rest, f);
    MatchingConcat((a + [y]) + between, [x], f);
    MatchingConcat(a + [y], between, f);
    MatchingConcat(a, [y], f);
    hide Matching;
  }

  lemma {:induction false} Oldest(table: set<Item>) returns (x: Item)
    requires table != {}
    ensures x in table && forall y :: y in table ==> y.createdAt >= x.createdAt
    decreases table
  {
    x :| x in table;
    if table != {x} {
      assert table == {x} + (table - {x});
      var y := Oldest(table - {x});
      assert forall z :: z in table ==> z == x || z in table - {x};
      if y.createdAt < x.createdAt { x := y; }
    }
  }

  /** Every table has an order. */
  lemma {:induction false} SomeOrder(table: set<Item>) returns (order: seq<Item>)
    ensures OrderOf(order, table)
    decreases table
  {
    if table == {} { return []; }
    var x := Oldest(table);
    var front := SomeOrder(table - {x});
    order := front + [x];
    assert forall y :: y in front ==> y in table - {x};
    assert forall i :: 0 <= i < |front| ==> front[i] in front;
  }

  /** The order of every page but one, which has two neighbours of one time the other way round. */
  function Choice(order: seq<Item>, other: seq<Item>, page: nat, count: nat): (orders: seq<seq<Item>>)
    ensures |orders| == count && forall i :: 0 <= i < count ==> orders[i] == if i == page then other else order
  {
    seq(count, i => if i == page then other else order)
  }

  /** The last row of a page comes again as the first row of the next. */
  lemma FirstIsLast(table: set<Item>, f: ListFilter, order: seq<Item>, other: seq<Item>, page: nat)
    requires |WantedIn(table, f)| <= MAX_INT && OrderOf(order, table) && OrderOf(other, table)
    requires 0 < page * PageSize(f) < |WantedIn(table, f)|
    requires var m := page * PageSize(f);
      m < |Matching(order, f)| && m < |Matching(other, f)| && Matching(other, f)[m] == Matching(order, f)[m - 1]
    ensures !AlwaysCovers(table, f)
  {
    var total, size, m := |WantedIn(table, f)|, PageSize(f), page * PageSize(f);
    var orders := Choice(order, other, page, PageCount(total, size));
    assert OrdersOf(orders, table, f);
    AllPages(table, f, orders);
    FirstRowOfPage(page, total, size);
    hide OrderOf, OrdersOf, WantedIn, PageSize, Pages, Matching, PageCount, OnPage;
    var all := Pages(orders, f);
    assert StandsAt(Matching(orders[page - 1], f), m - 1, all[m - 1]) && StandsAt(Matching(orders[page], f), m, all[m]);
    assert all[m - 1] == all[m];
    Repeats(all, WantedIn(table, f), m);
  }

  lemma Repeats(a: seq<Item>, rows: set<Item>, m: nat)
    requires 0 < m < |a| && a[m - 1] == a[m]
    ensures !OrderOf(a, rows)
  {}

  lemma FirstRowOfPage(page: nat, total: nat, size: nat)
    requires size > 0 && 0 < page * size < total
    ensures page > 0 && OnPage(page * size - 1, page - 1, size) && OnPage(page * size, page, size) && page < PageCount(total, size)
  {
    Below(page, page, size);
    Below(page - 1, page, size);
    LastPageIsEnd(total, size);
    if PageCount(total, size) <= page { Below(PageCount(total, size), page, size); }
  }

  /** An order in which two wanted neighbours of one time have changed places. */
  lemma SwapNeighbours(order: seq<Item>, table: set<Item>, f: ListFilter, m: nat) returns (other: seq<Item>)
    requires OrderOf(order, table) && m + 1 < |Matching(order, f)|
    requires Matching(order, f)[m].createdAt == Matching(order, f)[m + 1].createdAt
    ensures OrderOf(other, table) && m + 1 < |Matching(other, f)| && Matching(other, f)[m + 1] == Matching(order, f)[m]
  {
    hide OrderOf, Matching, Wanted;
    var p := Place(order, f, m);
    var q := Place(order, f, m + 1);
    PlacesInOrder(order, f, p, q);
    SwappedIsOrder(order, table, p, q);
    SwappedMatching(order, f, p, q, m);
    other := Swapped(order, p, q);
  }

  /** The neighbours at the end of a page that splits a time. */
  lemma NeighboursOfOneTime(table: set<Item>, f: ListFilter, time: int, page: nat, order: seq<Item>)
    requires SplitBy(table, f, time, page) && OrderOf(order, table)
    ensures var rows, m := Matching(order, f), page * PageSize(f);
      0 < m < |rows| && |rows| == |WantedIn(table, f)| && rows[m - 1].createdAt == rows[m].createdAt
  {
    OrderOfWanted(order, table, f);
    hide OrderOf, WantedIn, PageSize, Matching;
    var rows := Matching(order, f);
    LaterComeFirst(rows, WantedIn(table, f), time);
    LaterComeFirst(rows, WantedIn(table, f), time - 1);
  }

  /** A page that ends between two rows of one time may show one of them twice. */
  lemma SplitMayRepeat(table: set<Item>, f: ListFilter, time: int, page: nat)
    requires |WantedIn(table, f)| <= MAX_INT && SplitBy(table, f, time, page)
    ensures !AlwaysCovers(table, f)
  {
    var order := SomeOrder(table);
    NeighboursOfOneTime(table, f, time, page, order);
    hide OrderOf, WantedIn, PageSize, Matching, SplitBy, AlwaysCovers;
    var other := SwapNeighbours(order, table, f, page * PageSize(f) - 1);
    FirstIsLast(table, f, order, other, page);
  }

  lemma PlacesInOrder(order: seq<Item>, f: ListFilter, p: nat, q: nat)
    requires p <= |order| && q <= |order| && |Matching(order[..p], f)| < |Matching(order[..q], f)|
    ensures p < q
  {
    if q <= p {
      assert order[..p] == order[..q] + order[q..p];
      MatchingConcat(order[..q], order[q..p], f);
    }
  }

  // ----- the exact condition

  /**
   The pages from the first to the last add up to the wanted rows, newest first, none missed and none repeated, whatever order
   the database gives each call: if and only if no page ends between two wanted rows of the same time.
   */
  lemma PagesCoverExactly(table: set<Item>, f: ListFilter)
    requires |WantedIn(table, f)| <= MAX_INT
    ensures AlwaysCovers(table, f) <==> forall time, page: nat :: !SplitBy(table, f, time, page)
  {
    if time: int, page: nat :| SplitBy(table, f, time, page) {
      SplitMayRepeat(table, f, time, page);
    } else {
      forall orders | OrdersOf(orders, table, f)
        ensures OrderOf(Pages(orders, f), WantedIn(table, f))
      {
        UnsplitCovers(table, f, orders);
      }
    }
  }

  /** With distinct creation times among the wanted rows no page can split a time. */
  lemma PagesCoverTheListing(table: set<Item>, f: ListFilter)
    requires |WantedIn(table, f)| <= MAX_INT
    requires forall x, y :: x in WantedIn(table, f) && y in WantedIn(table, f) && x != y ==> x.createdAt != y.createdAt
    ensures AlwaysCovers(table, f)
  {
    var wanted := WantedIn(table, f);
    forall time, page: nat
      ensures !SplitBy(table, f, time, page)
    {
      OneOfATime(wanted, time);
      hide Later;
    }
    hide SplitBy, AlwaysCovers, WantedIn;
    PagesCoverExactly(table, f);
  }

  lemma OneOfATime(rows: set<Item>, time: int)
    requires forall x, y :: x in rows && y in rows && x != y ==> x.createdAt != y.createdAt
    ensures |Later(rows, time - 1)| <= |Later(rows, time)| + 1
  {
    if x :| x in rows && x.createdAt == time {
      assert Later(rows, time - 1) == Later(rows, time) + {x};
    } else {
      assert Later(rows, time - 1) == Later(rows, time);
    }
  }

  /** Two rows of one time, one a page: the database may well show the same row twice, and the other never. */
  lemma TiesMayRepeat(x: Item, y: Item)
    requires x != y && x.createdAt == y.createdAt
    ensures !AlwaysCovers({x, y}, ListFilter(None, None, None, None, 1, 1))
  {
    var f := ListFilter(None, None, None, None, 1, 1);
    assert WantedIn({x, y}, f) == {x, y};
    assert Later({x, y}, x.createdAt) == {} && Later({x, y}, x.createdAt - 1) == {x, y};
    assert SplitBy({x, y}, f, x.createdAt, 1);
    hide SplitBy, AlwaysCovers, WantedIn;
    SplitMayRepeat({x, y}, f, x.createdAt, 1);
  }

  lemma NoPages(f: ListFilter)
    ensures Pages([], f) == []
  {}
}
