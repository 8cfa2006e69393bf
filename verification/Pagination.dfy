/**
 Keyset pagination (ListOperations and ListEvents in internal/store/postgres.go, the cursors of
 internal/store/cursor.go). A cursor is the key of the last item returned; the page query asks
 for one row more than the limit and the loop's truncation turns that row into a cursor.
 */
module Pagination {
  import opened Domain
  import opened Transactions

  // ---- One page

  /** The rows that satisfy a WHERE clause, in table order. */
  function Keep<T>(rows: seq<T>, p: T -> bool): seq<T> {
    if rows == [] then []
    else
      var last := rows[|rows| - 1];
      Keep(rows[..|rows| - 1], p) + if p(last) then [last] else []
  }

  function Min(a: nat, b: nat): nat {
    if a < b then a else b
  }

  /** SELECT ... WHERE p ORDER BY key LIMIT limit + 1, the scan loop and the truncation. */
  method Page<T>(rows: seq<T>, p: T -> bool, limit: nat) returns (items: seq<T>, more: bool)
    requires limit >= 1
    ensures var found := Keep(rows, p);
      items == found[..Min(limit, |found|)] && (more <==> |found| > limit)
  {
    items := [];
    var n := 0;
    while n < |rows| && |items| < limit + 1
      invariant n <= |rows| && |items| <= limit + 1 && items == Keep(rows[..n], p)
    {
      assert rows[..n + 1][..n] == rows[..n];
      if p(rows[n]) { items := items + [rows[n]]; }
      n := n + 1;
    }
    KeepPrefix(rows[..n], rows[n..], p);
    assert rows == rows[..n] + rows[n..];
    more := |items| > limit;
    if more { items := items[..limit]; }
  }

  lemma {:induction false} KeepPrefix<T>(rows: seq<T>, more: seq<T>, p: T -> bool)
    ensures Keep(rows + more, p) == Keep(rows, p) + Keep(more, p)
  {
    if more == [] {
      assert rows + more == rows;
    } else {
      assert (rows + more)[..|rows + more| - 1] == rows + more[..|more| - 1];
      KeepPrefix(rows, more[..|more| - 1], p);
    }
  }

  lemma {:induction false} KeepNone<T>(rows: seq<T>, p: T -> bool)
    requires forall i | 0 <= i < |rows| :: !p(rows[i])
    ensures Keep(rows, p) == []
  {
    if rows != [] {
      KeepNone(rows[..|rows| - 1], p);
    }
  }

  lemma {:induction false} KeepSame<T>(rows: seq<T>, p: T -> bool, q: T -> bool)
    requires forall i | 0 <= i < |rows| :: p(rows[i]) <==> q(rows[i])
    ensures Keep(rows, p) == Keep(rows, q)
  {
    if rows != [] {
      KeepSame(rows[..|rows| - 1], p, q);
    }
  }

  /** Where the k-th kept row stands in the table. */
  lemma {:induction false} PositionOf<T>(rows: seq<T>, p: T -> bool, k: nat) returns (m: nat)
    requires 0 < k <= |Keep(rows, p)|
    ensures 0 < m <= |rows| && p(rows[m - 1]) && Keep(rows, p)[k - 1] == rows[m - 1] && |Keep(rows[..m], p)| == k
  {
    var before := rows[..|rows| - 1];
    if k <= |Keep(before, p)| {
      m := PositionOf(before, p, k);
      assert before[..m] == rows[..m];
    } else {
      m := |rows|;
      assert rows[..m] == rows;
    }
  }

  /** A predicate that starts where the first k kept rows end keeps exactly the others. */
  lemma Resume<T>(rows: seq<T>, p: T -> bool, q: T -> bool, m: nat)
    requires m <= |rows|
    requires forall i | 0 <= i < m :: !q(rows[i])
    requires forall i | m <= i < |rows| :: q(rows[i]) <==> p(rows[i])
    ensures |Keep(rows[..m], p)| <= |Keep(rows, p)|
    ensures Keep(rows, q) == Keep(rows, p)[|Keep(rows[..m], p)|..]
  {
    assert rows == rows[..m] + rows[m..];
    KeepPrefix(rows[..m], rows[m..], p);
    KeepPrefix(rows[..m], rows[m..], q);
    KeepNone(rows[..m], q);
    KeepSame(rows[m..], p, q);
  }

  lemma {:induction false} KeepExact<T>(rows: seq<T>, p: T -> bool)
    ensures forall x :: x in Keep(rows, p) <==> x in rows && p(x)
  {
    if rows != [] {
      KeepExact(rows[..|rows| - 1], p);
      assert rows == rows[..|rows| - 1] + [rows[|rows| - 1]];
    }
  }

  // ---- ListOperations

  datatype OpKey = OpKey(createdAt: Time, id: OpId)

  datatype Listed = Listed(id: OpId, row: Row)

  datatype Filter = Filter(workflow: Option<WorkflowId>, state: Option<State>, target: string,
    createdAfter: Option<Time>)

  function KeyOf(x: Listed): OpKey {
    OpKey(x.row.intent.createdAt, x.id)
  }

  /** Row comparison (created_at, id) > (created_at, id). */
  predicate Above(a: OpKey, b: OpKey) {
    a.createdAt > b.createdAt || (a.createdAt == b.createdAt && a.id > b.id)
  }

  /** The cursor an empty parameter stands for: the epoch and the zero UUID. */
  const ORIGIN := OpKey(0, 0)

  predicate Passes(f: Filter, x: Listed) {
    && (f.workflow.None? || x.row.intent.workflow == f.workflow.value)
    && (f.state.None? || x.row.state == f.state.value)
    && (f.target == "" || x.row.intent.target == f.target)
    && (f.createdAfter.None? || x.row.intent.createdAt > f.createdAfter.value)
  }

  /** The table read through its (created_at, id) order. */
  ghost predicate InOrder(table: seq<Listed>) {
    forall i, j | 0 <= i < j < |table| :: Above(KeyOf(table[j]), KeyOf(table[i]))
  }

  function Matching(table: seq<Listed>, f: Filter, cursor: OpKey): seq<Listed> {
    Keep(table, x => Passes(f, x) && Above(KeyOf(x), cursor))
  }

  method ListOperations(table: seq<Listed>, f: Filter, cursor: OpKey, limit: nat)
      returns (items: seq<Listed>, next: Option<OpKey>)
    requires limit >= 1
    ensures var found := Matching(table, f, cursor);
      && items == found[..Min(limit, |found|)]
      && next == if |found| > limit then Some(KeyOf(found[limit - 1])) else None
  {
    var more;
    items, more := Page(table, x => Passes(f, x) && Above(KeyOf(x), cursor), limit);
    next := if more then Some(KeyOf(items[limit - 1])) else None;
  }

  lemma MatchingExact(table: seq<Listed>, f: Filter, cursor: OpKey)
    ensures forall x :: x in Matching(table, f, cursor) <==> x in table && Passes(f, x) && Above(KeyOf(x), cursor)
  {
    KeepExact(table, (x: Listed) => Passes(f, x) && Above(KeyOf(x), cursor));
  }

  /** Continuing from the key of the k-th item finds exactly the items after it. */
  lemma ContinueFrom(table: seq<Listed>, f: Filter, cursor: OpKey, k: nat)
    requires InOrder(table) && 0 < k <= |Matching(table, f, cursor)|
    ensures Matching(table, f, KeyOf(Matching(table, f, cursor)[k - 1])) == Matching(table, f, cursor)[k..]
  {
    var p := (x: Listed) => Passes(f, x) && Above(KeyOf(x), cursor);
    var here := KeyOf(Keep(table, p)[k - 1]);
    var q := (x: Listed) => Passes(f, x) && Above(KeyOf(x), here);
    var m := PositionOf(table, p, k);
    assert here == KeyOf(table[m - 1]);
    Resume(table, p, q, m);
  }

  /** The pages a client reads by following next_cursor to the end. */
  ghost function Pages(table: seq<Listed>, f: Filter, cursor: OpKey, limit: nat): seq<seq<Listed>>
    requires InOrder(table) && limit >= 1
    decreases |Matching(table, f, cursor)|
  {
    var found := Matching(table, f, cursor);
    if |found| <= limit then [found]
    else
      ContinueFrom(table, f, cursor, limit);
      [found[..limit]] + Pages(table, f, KeyOf(found[limit - 1]), limit)
  }

  function Flat<T>(pages: seq<seq<T>>): seq<T> {
    if pages == [] then [] else pages[0] + Flat(pages[1..])
  }

  /** Following next_cursor yields every matching operation above the cursor, in order, in full pages but the last. */
  lemma {:induction false} PagesAreTheList(table: seq<Listed>, f: Filter, cursor: OpKey, limit: nat)
    requires InOrder(table) && limit >= 1
    ensures var pages := Pages(table, f, cursor, limit);
      && Flat(pages) == Matching(table, f, cursor)
      && pages != [] && (forall i | 0 <= i < |pages| - 1 :: |pages[i]| == limit) && |pages[|pages| - 1]| <= limit
    decreases |Matching(table, f, cursor)|
  {
    var found := Matching(table, f, cursor);
    if |found| <= limit {
      assert Flat([found]) == found + Flat([]);
    } else {
      ContinueFrom(table, f, cursor, limit);
      PagesAreTheList(table, f, KeyOf(found[limit - 1]), limit);
      var rest := Pages(table, f, KeyOf(found[limit - 1]), limit);
      assert ([found[..limit]] + rest)[1..] == rest;
    }
  }

  /** The operation lies above the epoch and the zero UUID and passes the filter, parameter by parameter. */
  predicate Wanted(x: Listed, f: Filter) {
    && (x.row.intent.createdAt > 0 || (x.row.intent.createdAt == 0 && x.id > 0))
    && (f.workflow.Some? ==> x.row.intent.workflow == f.workflow.value)
    && (f.state.Some? ==> x.row.state == f.state.value)
    && (f.target != "" ==> x.row.intent.target == f.target)
    && (f.createdAfter.Some? ==> x.row.intent.createdAt > f.createdAfter.value)
  }

  /** Older first, and by ID among operations of the same time. */
  predicate Older(x: Listed, y: Listed) {
    x.row.intent.createdAt < y.row.intent.createdAt || (x.row.intent.createdAt == y.row.intent.createdAt && x.id < y.id)
  }

  lemma WantedIff(x: Listed, f: Filter)
    ensures Wanted(x, f) <==> Passes(f, x) && Above(KeyOf(x), ORIGIN)
  {
  }

  /**
   From the first page on, what is listed is exactly what the filter asks for above the origin,
   each once, oldest first.
   */
  lemma ListedIff(table: seq<Listed>, f: Filter, limit: nat)
    requires InOrder(table) && limit >= 1
    ensures var all := Flat(Pages(table, f, ORIGIN, limit));
      && (forall x :: x in all <==> x in table && Wanted(x, f))
      && (forall i, j | 0 <= i < j < |all| :: Older(all[i], all[j]))
  {
    hide Wanted, Passes;
    PagesAreTheList(table, f, ORIGIN, limit);
    MatchingExact(table, f, ORIGIN);
    forall x: Listed ensures Wanted(x, f) <==> Passes(f, x) && Above(KeyOf(x), ORIGIN) { WantedIff(x, f); }
    var all := Matching(table, f, ORIGIN);
    forall i, j | 0 <= i < j < |all| ensures Older(all[i], all[j]) {
      ContinueFrom(table, f, ORIGIN, i + 1);
      MatchingExact(table, f, KeyOf(all[i]));
      assert all[j] == all[i + 1..][j - i - 1];
    }
  }

  // ---- ListEvents

  datatype EventRow = EventRow(id: nat, operation: OpId, event: Event)

  /** The events of one operation are written under its row lock, so their serial IDs grow in commit order. */
  ghost predicate Serial(table: seq<EventRow>) {
    forall i, j | 0 <= i < j < |table| && table[i].operation == table[j].operation :: table[i].id < table[j].id
  }

  function EventsAfter(table: seq<EventRow>, id: OpId, cursor: nat): seq<EventRow> {
    Keep(table, (e: EventRow) => e.operation == id && e.id > cursor)
  }

  method ListEvents(operations: set<OpId>, table: seq<EventRow>, id: OpId, cursor: nat, limit: nat)
    returns (r: Result<(seq<EventRow>, Option<nat>)>)
    requires limit >= 1
    ensures id !in operations ==> r == Err(OperationNotFound)
    ensures id in operations ==> r == Ok(EventPage(table, id, cursor, limit))
  {
    if id !in operations { return Err(OperationNotFound); }
    var items, more := Page(table, (e: EventRow) => e.operation == id && e.id > cursor, limit);
    var next := if more then Some(items[limit - 1].id) else None;
    return Ok((items, next));
  }

  function EventPage(table: seq<EventRow>, id: OpId, cursor: nat, limit: nat): (seq<EventRow>, Option<nat>)
    requires limit >= 1
  {
    var found := EventsAfter(table, id, cursor);
    (found[..Min(limit, |found|)], if |found| > limit then Some(found[limit - 1].id) else None)
  }

  /** What a reader has after one request per table in `tables`, following the cursors. */
  datatype Reading = Reading(items: seq<EventRow>, cursor: nat, done: bool)

  function Read(tables: seq<seq<EventRow>>, id: OpId, limit: nat): Reading
    requires limit >= 1
  {
    if tables == [] then Reading([], 0, false)
    else
      var prev := Read(tables[..|tables| - 1], id, limit);
      if prev.done then prev
      else
        var page := EventPage(tables[|tables| - 1], id, prev.cursor, limit);
        Reading(prev.items + page.0, if page.1.Some? then page.1.value else prev.cursor, page.1.None?)
  }

  /** Between two requests the table only grows. */
  ghost predicate Growing(tables: seq<seq<EventRow>>) {
    && (forall k | 0 <= k < |tables| :: Serial(tables[k]) && (forall e | e in tables[k] :: e.id > 0))
    && (forall k | 0 < k < |tables| :: tables[k - 1] <= tables[k])
  }

  /** All events of the operation: IDs start at 1. */
  function EventsOf(table: seq<EventRow>, id: OpId): seq<EventRow> {
    EventsAfter(table, id, 0)
  }

  /** They are the operation's rows of the table, each once, by ID. */
  lemma EventsExact(table: seq<EventRow>, id: OpId)
    requires Serial(table) && forall e | e in table :: e.id > 0
    ensures forall e :: e in EventsOf(table, id) <==> e in table && e.operation == id
    ensures forall i, j | 0 <= i < j < |EventsOf(table, id)| :: EventsOf(table, id)[i].id < EventsOf(table, id)[j].id
  {
    KeepExact(table, (e: EventRow) => e.operation == id && e.id > 0);
    var events := EventsOf(table, id);
    forall i, j | 0 <= i < j < |events| ensures events[i].id < events[j].id {
      EventsContinue(table, id, i + 1);
      var here := events[i].id;
      KeepExact(table, (e: EventRow) => e.operation == id && e.id > here);
      assert events[j] == events[i + 1..][j - i - 1];
    }
  }

  lemma EventsGrow(table: seq<EventRow>, later: seq<EventRow>, id: OpId)
    requires table <= later
    ensures EventsOf(table, id) <= EventsOf(later, id)
  {
    assert later == table + later[|table|..];
    KeepPrefix(table, later[|table|..], (e: EventRow) => e.operation == id && e.id > 0);
  }

  /** The cursor of the k-th event separates the first k events from the others. */
  lemma EventsContinue(table: seq<EventRow>, id: OpId, k: nat)
    requires Serial(table) && 0 < k <= |EventsOf(table, id)|
    ensures EventsAfter(table, id, EventsOf(table, id)[k - 1].id) == EventsOf(table, id)[k..]
  {
    var p := (e: EventRow) => e.operation == id && e.id > 0;
    var here := Keep(table, p)[k - 1].id;
    var q := (e: EventRow) => e.operation == id && e.id > here;
    var m := PositionOf(table, p, k);
    assert table[m - 1].id == here && table[m - 1].operation == id;
    Resume(table, p, q, m);
  }

  /** The reader stands right after the events it has read. */
  ghost predicate Standing(r: Reading, events: seq<EventRow>) {
    && r.items <= events
    && r.cursor == if r.items == [] then 0 else r.items[|r.items| - 1].id
  }

  /** The next page is cut from what the reader has not seen. */
  lemma RestOf(prev: Reading, table: seq<EventRow>, id: OpId)
    requires Serial(table) && Standing(prev, EventsOf(table, id))
    ensures |prev.items| <= |EventsOf(table, id)|
    ensures EventsAfter(table, id, prev.cursor) == EventsOf(table, id)[|prev.items|..]
  {
    hide EventsAfter;
    var events := EventsOf(table, id);
    if prev.items != [] {
      assert prev.items[|prev.items| - 1] == events[|prev.items| - 1];
      EventsContinue(table, id, |prev.items|);
    }
  }

  lemma PageStep(prev: Reading, table: seq<EventRow>, id: OpId, limit: nat)
    requires limit >= 1 && Serial(table) && Standing(prev, EventsOf(table, id))
    ensures var page := EventPage(table, id, prev.cursor, limit);
      && (page.1.Some? ==> |page.0| == limit)
      && (page.1.Some? ==> Standing(Reading(prev.items + page.0, page.1.value, false), EventsOf(table, id)))
      && (page.1.Some? ==> prev.items + page.0 <= EventsOf(table, id))
      && (page.1.None? ==> prev.items + page.0 == EventsOf(table, id))
  {
    hide EventsOf, EventsAfter, Serial;
    RestOf(prev, table, id);
    var events := EventsOf(table, id);
    assert events == prev.items + events[|prev.items|..];
  }

  /**
   However many events are appended between the requests, what has been read is a prefix of the
   operation's events, in full pages, and when no cursor is returned it was all of them.
   */
  lemma {:induction false} ReadIsExact(tables: seq<seq<EventRow>>, id: OpId, limit: nat)
    requires limit >= 1 && tables != [] && Growing(tables)
    ensures var r := Read(tables, id, limit);
      && r.items <= EventsOf(tables[|tables| - 1], id)
      && (!r.done ==> |r.items| == limit * |tables| && Standing(r, EventsOf(tables[|tables| - 1], id)))
      && (r.done ==> exists k :: 0 <= k < |tables| && r.items == EventsOf(tables[k], id))
  {
    hide EventsOf, EventPage, Serial, Standing;
    var before, table := tables[..|tables| - 1], tables[|tables| - 1];
    var prev := Read(before, id, limit);
    if before == [] {
      StartStanding(EventsOf(table, id));
    } else {
      ReadIsExact(before, id, limit);
      EventsGrow(before[|before| - 1], table, id);
      if !prev.done { StandingLater(prev, EventsOf(before[|before| - 1], id), EventsOf(table, id)); }
    }
    if prev.done {
      var k :| 0 <= k < |before| && prev.items == EventsOf(before[k], id);
      assert tables[k] == before[k];
    } else {
      PageStep(prev, table, id, limit);
      PagesAddUp(limit, |tables|);
    }
  }

  lemma StartStanding(events: seq<EventRow>)
    ensures Standing(Reading([], 0, false), events)
  {
  }

  lemma StandingLater(r: Reading, events: seq<EventRow>, later: seq<EventRow>)
    requires Standing(r, events) && events <= later
    ensures Standing(r, later)
  {
  }

  lemma PagesAddUp(limit: nat, n: nat)
    requires n > 0
    ensures limit * (n - 1) + limit == limit * n
  {
  }

  /** A table that has stopped growing is read to its end within |events| / limit + 1 requests. */
  lemma ReadTerminates(tables: seq<seq<EventRow>>, id: OpId, limit: nat)
    requires limit >= 1 && tables != [] && Growing(tables)
    requires limit * |tables| > |EventsOf(tables[|tables| - 1], id)|
    ensures Read(tables, id, limit).done
  {
    ReadIsExact(tables, id, limit);
  }
}
