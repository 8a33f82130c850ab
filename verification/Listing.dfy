/**
 The filtered, paged listing of internal/adapters/postgres/repository.go: two queries grown clause by clause with numbered
 placeholders and one list of arguments, against a plain filter, sort and slice.
 */
module Listing {
  import opened Domain

  const MAX_INT: int := 0x7fff_ffff_ffff_ffff
  const DEFAULT_PAGE_SIZE: int := 20

  /** The columns the listing looks at. */
  datatype Item = Item(id: nat, status: Status, channel: Channel, createdAt: int)

  datatype ListFilter = ListFilter(
    status: Option<Status>, channel: Option<Channel>, fromDate: Option<int>, toDate: Option<int>, page: int, pageSize: int)

  /** What a caller means by a filter. */
  predicate Wanted(f: ListFilter, x: Item) {
    && (f.status.Some? ==> x.status == f.status.value)
    && (f.channel.Some? ==> x.channel == f.channel.value)
    && (f.fromDate.Some? ==> f.fromDate.value <= x.createdAt)
    && (f.toDate.Some? ==> x.createdAt <= f.toDate.value)
  }

  // ----- queries

  datatype Test = StatusIs | ChannelIs | CreatedFrom | CreatedUntil

  datatype Arg = StatusArg(status: Status) | ChannelArg(channel: Channel) | TimeArg(time: int) | NumberArg(number: int)

  /** `AND column op $slot`. */
  datatype Clause = Clause(test: Test, slot: nat)

  /** The text of a query: its WHERE clauses and, for the listing itself, the placeholders of LIMIT and OFFSET. */
  datatype Query = Query(clauses: seq<Clause>, bounds: Option<(nat, nat)>)

  /** A clause holds of a row, with the argument that its placeholder names. */
  predicate Holds(c: Clause, args: seq<Arg>, x: Item) {
    && 1 <= c.slot <= |args|
    && match c.test
       case StatusIs => args[c.slot - 1] == StatusArg(x.status)
       case ChannelIs => args[c.slot - 1] == ChannelArg(x.channel)
       case CreatedFrom => args[c.slot - 1].TimeArg? && args[c.slot - 1].time <= x.createdAt
       case CreatedUntil => args[c.slot - 1].TimeArg? && x.createdAt <= args[c.slot - 1].time
  }

  predicate Selects(clauses: seq<Clause>, args: seq<Arg>, x: Item) { forall i :: 0 <= i < |clauses| ==> Holds(clauses[i], args, x) }

  /** Placeholders and arguments line up: each is named once, in order, and LIMIT and OFFSET take the last two. */
  predicate LinedUp(q: Query, args: seq<Arg>) {
    && (forall i :: 0 <= i < |q.clauses| ==> q.clauses[i].slot == i + 1)
    && match q.bounds
       case None => |args| == |q.clauses|
       case Some((limit, offset)) =>
         |args| == |q.clauses| + 2 && limit == |q.clauses| + 1 && offset == |q.clauses| + 2
         && args[limit - 1].NumberArg? && args[offset - 1].NumberArg?
  }

  /** A clause with the next placeholder narrows the selection by its own test. */
  lemma OneMoreClause(clauses: seq<Clause>, args: seq<Arg>, test: Test, arg: Arg, x: Item)
    requires forall i :: 0 <= i < |clauses| ==> clauses[i].slot == i + 1
    requires |args| == |clauses|
    ensures var c := Clause(test, |args| + 1);
      Selects(clauses + [c], args + [arg], x) <==> Selects(clauses, args, x) && Holds(Clause(test, 1), [arg], x)
  {
    var c := Clause(test, |args| + 1);
    var longer, more := clauses + [c], args + [arg];
    assert forall i :: 0 <= i < |clauses| ==> longer[i] == clauses[i] && more[i] == args[i];
    assert longer[|clauses|] == c && more[|args|] == arg;
    if Selects(longer, more, x) {
      forall i | 0 <= i < |clauses|
        ensures Holds(clauses[i], args, x)
      {
        assert Holds(longer[i], more, x);
      }
      assert Holds(longer[|clauses|], more, x);
    }
  }

  /** Go's 64-bit multiplication: the low 64 bits, read as a signed number. */
  function Wrap(x: int): (r: int)
    ensures -MAX_INT - 1 <= r <= MAX_INT
    ensures -MAX_INT - 1 <= x <= MAX_INT ==> r == x
    ensures (x - r) % 0x1_0000_0000_0000_0000 == 0
  {
    (x + MAX_INT + 1) % (2 * MAX_INT + 2) - MAX_INT - 1
  }

  function PageSize(f: ListFilter): int { if f.pageSize <= 0 then DEFAULT_PAGE_SIZE else f.pageSize }

  function PageNumber(f: ListFilter): int { if f.page <= 0 then 1 else f.page }

  function Offset(f: ListFilter): int { Wrap((PageNumber(f) - 1) * PageSize(f)) }

  /** The two queries and their arguments, grown side by side; `argIdx` is the next placeholder's number. */
  method BuildQueries(f: ListFilter) returns (query: Query, countQuery: Query, args: seq<Arg>, countArgs: seq<Arg>)
    ensures LinedUp(query, args) && LinedUp(countQuery, countArgs) && query.bounds.Some? && countQuery.bounds.None?
    ensures forall x :: Selects(query.clauses, args, x) <==> Wanted(f, x)
    ensures forall x :: Selects(countQuery.clauses, countArgs, x) <==> Wanted(f, x)
    ensures args[query.bounds.value.0 - 1] == NumberArg(PageSize(f)) && args[query.bounds.value.1 - 1] == NumberArg(Offset(f))
    ensures args[query.bounds.value.0 - 1].number == if f.pageSize > 0 then f.pageSize else 20
    ensures f.page <= 1 ==> args[query.bounds.value.1 - 1].number == 0
  {
    hide Selects, Wrap;
    var clauses, countClauses, where, argIdx := BuildClauses(f);
    countQuery, countArgs := Query(countClauses, None), where;
    var pageSize := if f.pageSize <= 0 then DEFAULT_PAGE_SIZE else f.pageSize;
    var page := if f.page <= 0 then 1 else f.page;
    var offset := Wrap((page - 1) * pageSize);
    query := Query(clauses, Some((argIdx, argIdx + 1)));
    args := where + [NumberArg(pageSize), NumberArg(offset)];
    forall x
      ensures Selects(clauses, args, x) <==> Wanted(f, x)
    {
      MoreArgs(clauses, where, args, x);
    }
  }

  /** The four conditions, in the order of the source. */
  method BuildClauses(f: ListFilter) returns (clauses: seq<Clause>, countClauses: seq<Clause>, args: seq<Arg>, argIdx: nat)
    ensures clauses == countClauses && |args| == |clauses| && argIdx == |args| + 1
    ensures forall i :: 0 <= i < |clauses| ==> clauses[i].slot == i + 1
    ensures forall x :: Selects(clauses, args, x) <==> Wanted(f, x)
  {
    clauses, countClauses, args, argIdx := [], [], [], 1;
    assert forall x :: Selects(clauses, args, x);
    hide Selects;
    if f.status.Some? {
      clauses, countClauses, args, argIdx := Grow(clauses, countClauses, args, argIdx, StatusIs, StatusArg(f.status.value));
    }
    if f.channel.Some? {
      clauses, countClauses, args, argIdx := Grow(clauses, countClauses, args, argIdx, ChannelIs, ChannelArg(f.channel.value));
    }
    if f.fromDate.Some? {
      clauses, countClauses, args, argIdx := Grow(clauses, countClauses, args, argIdx, CreatedFrom, TimeArg(f.fromDate.value));
    }
    if f.toDate.Some? {
      clauses, countClauses, args, argIdx := Grow(clauses, countClauses, args, argIdx, CreatedUntil, TimeArg(f.toDate.value));
    }
  }

  /** Arguments that no clause names change nothing. */
  lemma MoreArgs(clauses: seq<Clause>, args: seq<Arg>, more: seq<Arg>, x: Item)
    requires args <= more && forall i :: 0 <= i < |clauses| ==> clauses[i].slot == i + 1
    requires |args| == |clauses|
    ensures Selects(clauses, more, x) <==> Selects(clauses, args, x)
  {
    assert forall i :: 0 <= i < |clauses| ==> (Holds(clauses[i], more, x) <==> Holds(clauses[i], args, x));
  }

  /** One clause onto both queries, and its argument. */
  method Grow(clauses: seq<Clause>, countClauses: seq<Clause>, args: seq<Arg>, argIdx: nat, test: Test, arg: Arg)
    returns (clauses': seq<Clause>, countClauses': seq<Clause>, args': seq<Arg>, argIdx': nat)
    requires clauses == countClauses && |args| == |clauses| && argIdx == |args| + 1
    requires forall i :: 0 <= i < |clauses| ==> clauses[i].slot == i + 1
    ensures clauses' == countClauses' && |args'| == |clauses'| && argIdx' == |args'| + 1
    ensures forall i :: 0 <= i < |clauses'| ==> clauses'[i].slot == i + 1
    ensures forall x :: Selects(clauses', args', x) <==> Selects(clauses, args, x) && Holds(Clause(test, 1), [arg], x)
  {
    var clause := Clause(test, argIdx);
    clauses' := clauses + [clause];
    countClauses' := countClauses + [clause];
    args' := args + [arg];
    argIdx' := argIdx + 1;
    forall x
      ensures Selects(clauses', args', x) <==> Selects(clauses, args, x) && Holds(Clause(test, 1), [arg], x)
    {
      OneMoreClause(clauses, args, test, arg, x);
    }
  }

  // ----- the database's side, and the listing

  /** The rows of a table in the order of `ORDER BY created_at DESC`; rows of one time may come in any order. */
  predicate Newest(order: seq<Item>) { forall i, j :: 0 <= i < j < |order| ==> order[i].createdAt >= order[j].createdAt && order[i] != order[j] }

  ghost predicate OrderOf(order: seq<Item>, table: set<Item>) { Newest(order) && forall x :: x in order <==> x in table }

  function Rows(order: seq<Item>, clauses: seq<Clause>, args: seq<Arg>): seq<Item> {
    if order == [] then []
    else Rows(order[..|order| - 1], clauses, args) + if Selects(clauses, args, order[|order| - 1]) then [order[|order| - 1]] else []
  }

  function Slice(rows: seq<Item>, offset: nat, limit: nat): seq<Item> {
    if offset >= |rows| then [] else if offset + limit <= |rows| then rows[offset..offset + limit] else rows[offset..]
  }

  /** The listing's query on a snapshot; the database refuses a negative OFFSET or LIMIT. */
  function RunQuery(q: Query, args: seq<Arg>, order: seq<Item>): Option<seq<Item>>
    requires q.bounds.Some? && LinedUp(q, args)
  {
    var limit, offset := args[q.bounds.value.0 - 1].number, args[q.bounds.value.1 - 1].number;
    if limit < 0 || offset < 0 then None else Some(Slice(Rows(order, q.clauses, args), offset, limit))
  }

  /** The rows that are wanted, in order. */
  function Matching(order: seq<Item>, f: ListFilter): seq<Item> {
    if order == [] then [] else Matching(order[..|order| - 1], f) + if Wanted(f, order[|order| - 1]) then [order[|order| - 1]] else []
  }

  lemma {:induction false} RowsAreMatching(order: seq<Item>, clauses: seq<Clause>, args: seq<Arg>, f: ListFilter)
    requires forall x :: Selects(clauses, args, x) <==> Wanted(f, x)
    ensures Rows(order, clauses, args) == Matching(order, f)
  {
    if order != [] { RowsAreMatching(order[..|order| - 1], clauses, args, f); }
  }

  datatype Listed = Listed(rows: seq<Item>, total: nat)

  /** The page asked for, and how many rows there are in all; None is the database's refusal. */
  function Page(order: seq<Item>, f: ListFilter): Option<Listed> {
    if Offset(f) < 0 then None else Some(Listed(Slice(Matching(order, f), Offset(f), PageSize(f)), |Matching(order, f)|))
  }

  /** The count and the page are two queries: `counted` is the table as the first finds it, `order` as the second does. */
  method List(f: ListFilter, counted: seq<Item>, order: seq<Item>) returns (r: Option<Listed>)
    ensures r == if Page(order, f).None? then None else Some(Listed(Page(order, f).value.rows, |Matching(counted, f)|))
    ensures counted == order ==> r == Page(order, f)
  {
    var query, countQuery, args, countArgs := BuildQueries(f);
    RowsAreMatching(order, query.clauses, args, f);
    RowsAreMatching(counted, countQuery.clauses, countArgs, f);
    var total := |Rows(counted, countQuery.clauses, countArgs)|;
    var rows := RunQuery(query, args, order);
    if rows.None? { return None; }
    r := Some(Listed(rows.value, total));
  }

  // ----- the filter, the sort and the slice

  lemma {:induction false} MatchingIsFilter(order: seq<Item>, f: ListFilter)
    requires Newest(order)
    ensures Newest(Matching(order, f)) && |Matching(order, f)| <= |order|
    ensures forall x :: x in Matching(order, f) <==> x in order && Wanted(f, x)
  {
    if order != [] {
      var front, last := order[..|order| - 1], order[|order| - 1];
      MatchingIsFilter(front, f);
      assert forall x :: x in order <==> x in front || x == last;
      assert forall x :: x in front ==> x.createdAt >= last.createdAt && x != last;
      hide Wanted;
    }
  }

  // ----- offsets that wrap around

  lemma NotNegative(a: nat, b: nat)
    ensures a * b >= 0
  {}

  /** The slice a page stands for, with an offset of any size. */
  function ExactPage(order: seq<Item>, f: ListFilter): Listed {
    NotNegative(PageNumber(f) - 1, PageSize(f));
    Listed(Slice(Matching(order, f), (PageNumber(f) - 1) * PageSize(f), PageSize(f)), |Matching(order, f)|)
  }

  /** A page is its slice exactly when the offset does not wrap around, or wraps to beyond the last row. */
  lemma PageIsExactUnlessWrapped(order: seq<Item>, f: ListFilter)
    requires |Matching(order, f)| <= MAX_INT
    ensures Page(order, f) == Some(ExactPage(order, f)) <==>
      (PageNumber(f) - 1) * PageSize(f) <= MAX_INT || Offset(f) >= |Matching(order, f)|
  {
    var all, size, start := Matching(order, f), PageSize(f), (PageNumber(f) - 1) * PageSize(f);
    NotNegative(PageNumber(f) - 1, size);
    hide Matching, Wanted;
    if start > MAX_INT && 0 <= Offset(f) < |all| { assert Slice(all, start, size) == [] && |Slice(all, Offset(f), size)| > 0; }
  }

  /** Page 2^62 + 1 of four rows each is the first page again. */
  lemma HugePageComesRoundAgain(x: Item)
    ensures var f := ListFilter(None, None, None, None, 0x4000_0000_0000_0001, 4);
      Page([x], f) == Some(Listed([x], 1)) && ExactPage([x], f) == Listed([], 1)
  {
    var f := ListFilter(None, None, None, None, 0x4000_0000_0000_0001, 4);
    assert [x][..0] == [];
    assert Matching([x][..0], f) == [] && Matching([x], f) == [x];
    assert (PageNumber(f) - 1) * PageSize(f) == 0x1_0000_0000_0000_0000;
  }
}
