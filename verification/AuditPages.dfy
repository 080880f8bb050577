/** Keyset pagination over an append-only table of audit events, newest first. */
module AuditPages {
  import opened Wrappers

  datatype Column = ActorID | ActionName | Status | ServiceName | TraceID | Resource | ResourceID

  /** An absent column is NULL. The identifier is the UUID read as a number, which is how the server orders it. */
  datatype Event = Event(id: nat, createdAt: int, columns: map<Column, string>)

  datatype Key = Key(createdAt: int, id: nat)

  function KeyOf(e: Event): Key { Key(e.createdAt, e.id) }

  /** `(created_at, id) < (?, ?)`. */
  predicate Below(a: Key, b: Key) {
    a.createdAt < b.createdAt || (a.createdAt == b.createdAt && a.id < b.id)
  }

  /** The opaque cursor a client sends: none, one the server issued, or one that does not decode. */
  datatype Cursor = NoCursor | Issued(key: Key) | Garbage

  datatype Params = Params(equal: map<Column, string>, from: Option<int>, to: Option<int>, cursor: Cursor, limit: int)

  datatype Query = Query(equal: map<Column, string>, from: Option<int>, to: Option<int>, before: Option<Key>)

  predicate Satisfies(q: Query, e: Event) {
    && (forall c :: c in q.equal ==> c in e.columns && e.columns[c] == q.equal[c])
    && (q.from.Some? ==> e.createdAt >= q.from.value)
    && (q.to.Some? ==> e.createdAt <= q.to.value)
    && (q.before.Some? ==> Below(KeyOf(e), q.before.value))
  }

  function Select(table: seq<Event>, q: Query): seq<Event> {
    if table == [] then []
    else Select(table[..|table| - 1], q) + if Satisfies(q, table[|table| - 1]) then [table[|table| - 1]] else []
  }

  function Insert(e: Event, sorted: seq<Event>): seq<Event> {
    if sorted == [] then [e]
    else if Below(KeyOf(e), KeyOf(sorted[0])) then [sorted[0]] + Insert(e, sorted[1..])
    else [e] + sorted
  }

  /** `ORDER BY created_at DESC, id DESC`. */
  function Ordered(rows: seq<Event>): seq<Event> {
    if rows == [] then [] else Insert(rows[|rows| - 1], Ordered(rows[..|rows| - 1]))
  }

  function Take(rows: seq<Event>, n: nat): seq<Event> { if |rows| <= n then rows else rows[..n] }

  /** What the parameters ask for, page aside. */
  function QueryOf(p: Params): Query {
    var before := if p.cursor.Issued? then Some(p.cursor.key) else None;
    Query(map c | c in p.equal && p.equal[c] != "" :: p.equal[c], p.from, p.to, before)
  }

  function LimitOf(p: Params): (limit: nat)
    ensures 1 <= limit <= 200
  {
    if p.limit <= 0 then 50 else if p.limit > 200 then 200 else p.limit
  }

  datatype Page = Page(rows: seq<Event>, next: Cursor)

  /** All rows the parameters ask for, in order. */
  function Answer(table: seq<Event>, p: Params): seq<Event> { Ordered(Select(table, QueryOf(p))) }

  function Paged(all: seq<Event>, limit: nat): Page
    requires limit > 0
  {
    if |all| > limit then Page(all[..limit], Issued(KeyOf(all[limit - 1]))) else Page(all, NoCursor)
  }

  class AuditRepository {
    var events: seq<Event>

    constructor ()
      ensures events == []
    {
      events := [];
    }

    /** The primary key refuses an identifier that is already there. */
    method Create(event: Event) returns (ok: bool)
      modifies this
      ensures ok <==> forall e :: e in old(events) ==> e.id != event.id
      ensures events == if ok then old(events) + [event] else old(events)
    {
      ok := forall e :: e in events ==> e.id != event.id;
      if ok {
        events := events + [event];
      }
    }

    method ApplyEqualityFilters(q: Query, filters: map<Column, string>) returns (narrowed: Query)
      requires q.equal == map[]
      ensures narrowed == q.(equal := map c | c in filters && filters[c] != "" :: filters[c])
    {
      narrowed := q;
      var todo := filters.Keys;
      while todo != {}
        invariant todo <= filters.Keys
        invariant narrowed == q.(equal := map c | c in filters && c !in todo && filters[c] != "" :: filters[c])
        decreases todo
      {
        var c :| c in todo;
        todo := todo - {c};
        if filters[c] != "" {
          narrowed := narrowed.(equal := narrowed.equal[c := filters[c]]);
        }
      }
    }

    method List(params: Params) returns (page: Page)
      ensures page == Paged(Answer(events, params), LimitOf(params))
    {
      var limit := params.limit;
      if limit <= 0 {
        limit := 50;
      }
      if limit > 200 {
        limit := 200;
      }
      var q := ApplyEqualityFilters(Query(map[], None, None, None), params.equal);
      if params.from.Some? {
        q := q.(from := params.from);
      }
      if params.to.Some? {
        q := q.(to := params.to);
      }
      if params.cursor.Issued? {
        q := q.(before := Some(params.cursor.key));
      }
      var rows := Take(Ordered(Select(events, q)), limit + 1);
      var next := NoCursor;
      if |rows| > limit {
        rows := rows[..limit];
        next := Issued(KeyOf(rows[|rows| - 1]));
      }
      page := Page(rows, next);
    }
  }

  // ---------- The order ----------

  /** Strictly newest first: no two rows share a place. */
  ghost predicate Descending(rows: seq<Event>) {
    forall i, j :: 0 <= i < j < |rows| ==> Below(KeyOf(rows[j]), KeyOf(rows[i]))
  }

  ghost predicate UniqueIds(rows: seq<Event>) {
    forall i, j :: 0 <= i < j < |rows| ==> rows[i].id != rows[j].id
  }

  lemma {:induction false} InsertElements(e: Event, sorted: seq<Event>)
    ensures forall x :: x in Insert(e, sorted) <==> x == e || x in sorted
    ensures |Insert(e, sorted)| == |sorted| + 1
  {
    if sorted != [] {
      InsertElements(e, sorted[1..]);
      assert sorted == [sorted[0]] + sorted[1..];
    }
  }

  lemma {:induction false} InsertDescending(e: Event, sorted: seq<Event>)
    requires Descending(sorted) && (forall x :: x in sorted ==> x.id != e.id)
    ensures Descending(Insert(e, sorted))
  {
    if sorted != [] && Below(KeyOf(e), KeyOf(sorted[0])) {
      InsertDescending(e, sorted[1..]);
      InsertElements(e, sorted[1..]);
      var rest := Insert(e, sorted[1..]);
      forall j | 0 <= j < |rest| ensures Below(KeyOf(rest[j]), KeyOf(sorted[0])) {
        assert rest[j] in rest;
      }
    }
  }

  /** Ordering a table with distinct identifiers keeps its rows and puts them strictly newest first. */
  lemma {:induction false} OrderedIsSort(rows: seq<Event>)
    requires UniqueIds(rows)
    ensures forall x :: x in Ordered(rows) <==> x in rows
    ensures |Ordered(rows)| == |rows| && Descending(Ordered(rows))
  {
    if rows != [] {
      var init, e := rows[..|rows| - 1], rows[|rows| - 1];
      OrderedIsSort(init);
      InsertElements(e, Ordered(init));
      forall x | x in Ordered(init) ensures x.id != e.id {
        assert x in init;
      }
      InsertDescending(e, Ordered(init));
      assert rows == init + [e];
    }
  }

  lemma DescendingHead(a: seq<Event>, b: seq<Event>)
    requires a != [] && b != [] && Descending(a) && Descending(b) && (forall x :: x in a <==> x in b)
    ensures a[0] == b[0]
  {
    assert a[0] in b && b[0] in a;
  }

  lemma SameEmptiness(a: seq<Event>, b: seq<Event>)
    requires forall x :: x in a <==> x in b
    ensures a == [] <==> b == []
  {
    if a != [] {
      assert a[0] in b;
    }
    if b != [] {
      assert b[0] in a;
    }
  }

  /** Strictly ordered rows are determined by which rows they are. */
  lemma {:induction false} SameRowsSameOrder(a: seq<Event>, b: seq<Event>)
    requires Descending(a) && Descending(b) && (forall x :: x in a <==> x in b)
    ensures a == b
  {
    SameEmptiness(a, b);
    if a != [] {
      DescendingHead(a, b);
      forall x ensures x in a[1..] <==> x in b[1..] {
        TailElements(a, x);
        TailElements(b, x);
      }
      SameRowsSameOrder(a[1..], b[1..]);
      assert a == [a[0]] + a[1..] && b == [b[0]] + b[1..];
    }
  }

  lemma TailElements(a: seq<Event>, x: Event)
    requires a != [] && Descending(a)
    ensures x in a[1..] <==> x in a && x != a[0]
  {
    if x in a && x != a[0] {
      var i :| 0 <= i < |a| && a[i] == x;
      assert a[1..][i - 1] == x;
    }
    if x in a[1..] {
      var i :| 0 <= i < |a[1..]| && a[1..][i] == x;
      assert a[i + 1] == x && Below(KeyOf(a[i + 1]), KeyOf(a[0]));
    }
  }

  // ---------- What a page leaves for the next ----------

  lemma {:induction false} SelectElements(table: seq<Event>, q: Query)
    ensures forall x :: x in Select(table, q) <==> x in table && Satisfies(q, x)
  {
    if table != [] {
      SelectElements(table[..|table| - 1], q);
      assert table == table[..|table| - 1] + [table[|table| - 1]];
    }
  }

  lemma {:induction false} SelectUnique(table: seq<Event>, q: Query)
    requires UniqueIds(table)
    ensures UniqueIds(Select(table, q))
  {
    if table != [] {
      SelectUnique(table[..|table| - 1], q);
      SelectElements(table[..|table| - 1], q);
      var kept := Select(table[..|table| - 1], q);
      forall i | 0 <= i < |kept| ensures kept[i].id != table[|table| - 1].id {
        assert kept[i] in table[..|table| - 1];
      }
    }
  }

  /** The answer holds exactly the rows asked for, strictly newest first. */
  lemma AnswerIsSortedSelection(table: seq<Event>, p: Params)
    requires UniqueIds(table)
    ensures forall x :: x in Answer(table, p) <==> x in table && Satisfies(QueryOf(p), x)
    ensures Descending(Answer(table, p)) && |Answer(table, p)| == |Select(table, QueryOf(p))|
  {
    SelectElements(table, QueryOf(p));
    SelectUnique(table, QueryOf(p));
    OrderedIsSort(Select(table, QueryOf(p)));
  }

  /** Later tables only add rows, and none below the cursor. */
  ghost predicate GrownAbove(table: seq<Event>, later: seq<Event>, k: Key) {
    && table <= later && UniqueIds(later)
    && forall i :: |table| <= i < |later| ==> !Below(KeyOf(later[i]), k)
  }

  /** In a descending sequence, the rows below its m-th are the ones after it. */
  lemma TailIsBelow(rows: seq<Event>, m: nat, x: Event)
    requires Descending(rows) && 0 < m <= |rows|
    ensures x in rows[m..] <==> x in rows && Below(KeyOf(x), KeyOf(rows[m - 1]))
  {
    if x in rows[m..] {
      var i :| 0 <= i < |rows[m..]| && rows[m..][i] == x;
      assert rows[m + i] == x;
    }
    if x in rows && Below(KeyOf(x), KeyOf(rows[m - 1])) {
      var i :| 0 <= i < |rows| && rows[i] == x;
      assert i >= m;
      assert rows[m..][i - m] == x;
    }
  }

  lemma NarrowedQuery(p: Params, k: Key, x: Event)
    requires p.cursor.Issued? ==> Below(k, p.cursor.key)
    ensures Satisfies(QueryOf(p.(cursor := Issued(k))), x) <==> Satisfies(QueryOf(p), x) && Below(KeyOf(x), k)
  {
    assert QueryOf(p.(cursor := Issued(k))).equal == QueryOf(p).equal;
  }

  /** The key of a row that was answered lies below the cursor it was answered for. */
  lemma AnsweredBelow(table: seq<Event>, p: Params, i: nat)
    requires UniqueIds(table) && i < |Answer(table, p)| && p.cursor.Issued?
    ensures Below(KeyOf(Answer(table, p)[i]), p.cursor.key)
  {
    AnswerIsSortedSelection(table, p);
    assert Answer(table, p)[i] in Answer(table, p);
  }

  /** The next request is answered from where this page ended, whatever was added above it meanwhile. */
  lemma NextAnswer(table: seq<Event>, later: seq<Event>, p: Params, m: nat)
    requires UniqueIds(table) && 0 < m <= |Answer(table, p)|
    requires GrownAbove(table, later, KeyOf(Answer(table, p)[m - 1]))
    ensures Answer(later, p.(cursor := Issued(KeyOf(Answer(table, p)[m - 1])))) == Answer(table, p)[m..]
  {
    var all := Answer(table, p);
    var k := KeyOf(all[m - 1]);
    var p' := p.(cursor := Issued(k));
    if p.cursor.Issued? {
      AnsweredBelow(table, p, m - 1);
    }
    AnswerIsSortedSelection(table, p);
    AnswerIsSortedSelection(later, p');
    hide Answer, QueryOf;
    forall x ensures x in Answer(later, p') <==> x in all[m..] {
      TailIsBelow(all, m, x);
      NarrowedQuery(p, k, x);
      if x in later && Below(KeyOf(x), k) {
        var i :| 0 <= i < |later| && later[i] == x;
        assert i < |table| && table[i] == x;
      }
      if x in table {
        var i :| 0 <= i < |table| && table[i] == x;
        assert later[i] == x;
      }
    }
    SameRowsSameOrder(Answer(later, p'), all[m..]);
  }

  // ---------- Following the cursor ----------

  function ListAt(table: seq<Event>, p: Params): Page { Paged(Answer(table, p), LimitOf(p)) }

  /** A client asks for page after page while rows may be added above its cursor; it may stop at any time. */
  ghost predicate Walk(tables: seq<seq<Event>>, p: Params, pages: seq<Page>) {
    && |tables| == |pages| > 0
    && UniqueIds(tables[0]) && pages[0] == ListAt(tables[0], p)
    && (|pages| > 1 ==>
          && pages[0].next.Issued?
          && GrownAbove(tables[0], tables[1], pages[0].next.key)
          && Walk(tables[1..], p.(cursor := pages[0].next), pages[1..]))
  }

  function Flatten(pages: seq<Page>): seq<Event> {
    if pages == [] then [] else pages[0].rows + Flatten(pages[1..])
  }

  /** How many rows fit on n pages. */
  function Room(n: nat, limit: nat): nat { n * limit }

  lemma RoomStep(n: nat, limit: nat)
    requires n > 0
    ensures Room(n, limit) == limit + Room(n - 1, limit)
  {
  }

  lemma WalkStep(tables: seq<seq<Event>>, p: Params, pages: seq<Page>)
    requires Walk(tables, p, pages) && |pages| > 1
    ensures var (all, limit, p') := (Answer(tables[0], p), LimitOf(p), p.(cursor := pages[0].next));
      && |all| > limit && pages[0].rows == all[..limit] && LimitOf(p') == limit
      && Walk(tables[1..], p', pages[1..]) && Answer(tables[1], p') == all[limit..]
  {
    hide Answer, QueryOf;
    var limit := LimitOf(p);
    NextAnswer(tables[0], tables[1], p, limit);
  }

  /**
   After n pages the client holds exactly the first n * limit rows of the sorted, filtered table it
   started from, each once, and it is told that there is no next page exactly when it holds them all.
   */
  lemma {:induction false} WalkIsPrefix(tables: seq<seq<Event>>, p: Params, pages: seq<Page>)
    requires Walk(tables, p, pages)
    ensures Flatten(pages) == Take(Answer(tables[0], p), Room(|pages|, LimitOf(p)))
    ensures pages[|pages| - 1].next == NoCursor <==> |Answer(tables[0], p)| <= Room(|pages|, LimitOf(p))
    decreases |pages|
  {
    assert |tables| == |pages| > 0;
    hide Walk, Answer, LimitOf, QueryOf, Room, Take;
    if |pages| == 1 {
      OnePage(tables, p, pages);
    } else {
      var limit := LimitOf(p);
      WalkStep(tables, p, pages);
      RoomStep(|pages|, limit);
      WalkIsPrefix(tables[1..], p.(cursor := pages[0].next), pages[1..]);
      TakeSplit(Answer(tables[0], p), limit, Room(|pages| - 1, limit));
    }
  }

  lemma OnePage(tables: seq<seq<Event>>, p: Params, pages: seq<Page>)
    requires Walk(tables, p, pages) && |pages| == 1
    ensures Flatten(pages) == Take(Answer(tables[0], p), Room(1, LimitOf(p)))
    ensures pages[0].next == NoCursor <==> |Answer(tables[0], p)| <= Room(1, LimitOf(p))
  {
    hide Answer, LimitOf;
    FlattenOne(pages);
    assert Room(1, LimitOf(p)) == LimitOf(p);
  }

  lemma TakeSplit(all: seq<Event>, limit: nat, rest: nat)
    requires |all| > limit
    ensures Take(all, limit + rest) == all[..limit] + Take(all[limit..], rest)
    ensures |all| <= limit + rest <==> |all[limit..]| <= rest
  {
  }

  lemma FlattenOne(pages: seq<Page>)
    requires |pages| == 1
    ensures Flatten(pages) == pages[0].rows
  {
    assert Flatten(pages[1..]) == [];
  }

  /** Followed to its end, the cursor yields the whole sorted, filtered table: no gap, no repeat. */
  lemma WalkIsComplete(tables: seq<seq<Event>>, p: Params, pages: seq<Page>)
    requires Walk(tables, p, pages) && pages[|pages| - 1].next == NoCursor
    ensures Flatten(pages) == Ordered(Select(tables[0], QueryOf(p)))
  {
    WalkIsPrefix(tables, p, pages);
  }

  /** And the end comes: no walk is longer than its answer needs. */
  lemma WalkTerminates(tables: seq<seq<Event>>, p: Params, pages: seq<Page>)
    requires Walk(tables, p, pages) && |pages| > 1
    ensures Room(|pages| - 1, LimitOf(p)) < |Answer(tables[0], p)|
  {
    var n := |pages| - 1;
    WalkPrefixes(tables, p, pages, n);
    WalkIsPrefix(tables[..n], p, pages[..n]);
  }

  /** Any shorter walk is a walk, and it ended with a cursor. */
  lemma {:induction false} WalkPrefixes(tables: seq<seq<Event>>, p: Params, pages: seq<Page>, n: nat)
    requires Walk(tables, p, pages) && 0 < n < |pages|
    ensures Walk(tables[..n], p, pages[..n]) && pages[n - 1].next.Issued?
    decreases n
  {
    if n > 1 {
      WalkPrefixes(tables[1..], p.(cursor := pages[0].next), pages[1..], n - 1);
      assert tables[1..][..n - 1] == tables[..n][1..] && pages[1..][..n - 1] == pages[..n][1..];
    }
  }

  // ---------- What one page holds ----------

  /** The row meets every filter that is given, and comes after the cursor if there is one. */
  predicate Wanted(p: Params, e: Event) {
    && (forall c :: c in p.equal && p.equal[c] != "" ==> c in e.columns && e.columns[c] == p.equal[c])
    && (p.from.Some? ==> p.from.value <= e.createdAt)
    && (p.to.Some? ==> e.createdAt <= p.to.value)
    && (p.cursor.Issued? ==>
          e.createdAt < p.cursor.key.createdAt || (e.createdAt == p.cursor.key.createdAt && e.id < p.cursor.key.id))
  }

  predicate Newer(a: Event, b: Event) { a.createdAt > b.createdAt || (a.createdAt == b.createdAt && a.id > b.id) }

  lemma WantedIs(p: Params, e: Event)
    ensures Wanted(p, e) <==> Satisfies(QueryOf(p), e)
  {
    var q := QueryOf(p);
    assert forall c :: c in q.equal <==> c in p.equal && p.equal[c] != "";
  }

  /**
   A page holds rows of the table that are wanted, newest first, at most as many as the limit, which is 50 unless
   given and at most 200. A wanted row is missing only if the page is full of newer ones, and exactly then there is a
   next cursor, which names the page's last row.
   */
  lemma PageExact(table: seq<Event>, p: Params)
    requires UniqueIds(table)
    ensures var page := Paged(Answer(table, p), LimitOf(p));
      var limit := if p.limit <= 0 then 50 else if p.limit > 200 then 200 else p.limit;
      && |page.rows| <= limit
      && (forall x :: x in page.rows ==> x in table && Wanted(p, x))
      && (forall i, j :: 0 <= i < j < |page.rows| ==> Newer(page.rows[i], page.rows[j]))
      && (forall x :: x in table && Wanted(p, x) && x !in page.rows ==>
            |page.rows| == limit && forall y :: y in page.rows ==> Newer(y, x))
      && (page.next != NoCursor <==> exists x :: x in table && Wanted(p, x) && x !in page.rows)
      && (page.next != NoCursor ==>
            page.next == Issued(Key(page.rows[limit - 1].createdAt, page.rows[limit - 1].id)))
  {
    AnswerIsSortedSelection(table, p);
    var all, limit := Answer(table, p), LimitOf(p);
    forall x ensures x in all <==> x in table && Wanted(p, x) {
      WantedIs(p, x);
    }
    hide Answer, Wanted;
    var page := Paged(all, limit);
    assert forall i :: 0 <= i < |page.rows| ==> page.rows[i] == all[i];
    forall x | x in all && x !in page.rows ensures |all| > limit && forall y :: y in page.rows ==> Newer(y, x) {
      var k :| 0 <= k < |all| && all[k] == x;
      if k < |page.rows| {
        assert page.rows[k] == x;
      }
    }
    if |all| > limit {
      MissingAfter(all, limit);
    }
  }

  /** The first row after a full page is not on it. */
  lemma MissingAfter(all: seq<Event>, limit: nat)
    requires Descending(all) && limit < |all|
    ensures all[limit] in all && all[limit] !in all[..limit]
  {
    forall i | 0 <= i < limit ensures all[i] != all[limit] {
      assert Below(KeyOf(all[limit]), KeyOf(all[i]));
    }
  }
}
