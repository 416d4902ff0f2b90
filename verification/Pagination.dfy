/**
 Listings of the record store. A page continues after the row its cursor names, in (sequence, id)
 order, within a row limit and a size budget. Following the cursors yields every matching row once,
 whatever the limit and the sizes, and rows that stay are not missed or repeated while others are
 updated, appended or removed between pages.
 */
module Pagination {
  import opened Options
  import opened Pages

  datatype Row<V> = Row(kind: string, id: string, at: nat, value: V, size: nat)
  type Rows<V> = seq<Row<V>>
  datatype Order = Ascending | Descending
  datatype Page<V> = Page(data: Rows<V>, more: bool) | InvalidCursor

  // --- Order -----------------------------------------------------------------------------------------

  predicate Less(a: string, b: string) {
    b != [] && (a == [] || a[0] < b[0] || (a[0] == b[0] && Less(a[1..], b[1..])))
  }

  lemma {:induction false} LessIsStrict(a: string)
    ensures !Less(a, a)
  {
    if a != [] { LessIsStrict(a[1..]); }
  }

  lemma {:induction false} LessIsTransitive(a: string, b: string, c: string)
    requires Less(a, b) && Less(b, c)
    ensures Less(a, c)
  {
    if a != [] && a[0] == b[0] == c[0] { LessIsTransitive(a[1..], b[1..], c[1..]); }
  }

  lemma {:induction false} LessIsTotal(a: string, b: string)
    ensures a == b || Less(a, b) || Less(b, a)
  {
    if a != [] && b != [] && a[0] == b[0] {
      LessIsTotal(a[1..], b[1..]);
      assert a == [a[0]] + a[1..] && b == [b[0]] + b[1..];
    }
  }

  predicate Earlier<V>(a: Row<V>, b: Row<V>) { a.at < b.at || (a.at == b.at && Less(a.id, b.id)) }

  predicate Ahead<V>(order: Order, a: Row<V>, b: Row<V>) {
    if order.Ascending? then Earlier(a, b) else Earlier(b, a)
  }

  lemma AheadIsStrict<V>(order: Order, a: Row<V>)
    ensures !Ahead(order, a, a)
  {
    LessIsStrict(a.id);
  }

  lemma AheadIsTransitive<V>(order: Order, a: Row<V>, b: Row<V>, c: Row<V>)
    requires Ahead(order, a, b) && Ahead(order, b, c)
    ensures Ahead(order, a, c)
  {
    if a.at == b.at == c.at {
      if order.Ascending? { LessIsTransitive(a.id, b.id, c.id); } else { LessIsTransitive(c.id, b.id, a.id); }
    }
  }

  lemma AheadIsTotal<V>(order: Order, a: Row<V>, b: Row<V>)
    requires a.id != b.id
    ensures Ahead(order, a, b) || Ahead(order, b, a)
  {
    LessIsTotal(a.id, b.id);
  }

  // --- The table ---------------------------------------------------------------------------------------

  /** No two rows share kind and id. */
  ghost predicate Keyed<V>(rows: Rows<V>) {
    rows == [] || ((forall r | r in rows[1..] :: r.kind != rows[0].kind || r.id != rows[0].id) && Keyed(rows[1..]))
  }

  function Top<V>(rows: Rows<V>): nat {
    if rows == [] then 0 else if rows[0].at > Top(rows[1..]) then rows[0].at else Top(rows[1..])
  }

  function Find<V>(rows: Rows<V>, kind: string, id: string): Option<Row<V>> {
    if rows == [] then None
    else if rows[0].kind == kind && rows[0].id == id then Some(rows[0])
    else Find(rows[1..], kind, id)
  }

  predicate Names<V>(r: Row<V>, kind: string, id: string) { r.kind == kind && r.id == id }

  /** A number larger than every one given out to a row that is there. */
  ghost predicate Tops<V>(rows: Rows<V>, at: nat) { forall r | r in rows :: r.at < at }

  /** A row put again keeps its sequence number; a new one gets the next of the whole store. */
  function Put<V>(rows: Rows<V>, kind: string, id: string, value: V, size: nat): Rows<V> {
    var known := Find(rows, kind, id);
    if known.Some? then Replaced(rows, known.value.(value := value, size := size))
    else rows + [Row(kind, id, Top(rows) + 1, value, size)]
  }

  function Replaced<V>(rows: Rows<V>, row: Row<V>): Rows<V> {
    if rows == [] then []
    else if rows[0].kind == row.kind && rows[0].id == row.id then [row] + rows[1..]
    else [rows[0]] + Replaced(rows[1..], row)
  }

  function Remove<V>(rows: Rows<V>, kind: string, id: string): Rows<V> {
    if rows == [] then []
    else (if rows[0].kind == kind && rows[0].id == id then [] else [rows[0]]) + Remove(rows[1..], kind, id)
  }

  // --- Listing --------------------------------------------------------------------------------------------

  /** What a listing asks for: a kind, under a filter on a field and one on the expiry, in an order. */
  datatype Query<!V> = Query(kind: string, filter: V -> bool, live: V -> bool, order: Order)

  /** A row a cursor may name: the expiry does not matter for it. */
  predicate Marks<V>(q: Query<V>, r: Row<V>) { r.kind == q.kind && q.filter(r.value) }

  predicate Selects<V>(q: Query<V>, r: Row<V>) { Marks(q, r) && q.live(r.value) }

  function Insert<V>(order: Order, r: Row<V>, sorted: Rows<V>): Rows<V> {
    if sorted == [] || Ahead(order, r, sorted[0]) then [r] + sorted else [sorted[0]] + Insert(order, r, sorted[1..])
  }

  /** Whether a row is selected beyond a cursor. */
  predicate IsBeyond<V>(q: Query<V>, cursor: Option<Row<V>>, x: Row<V>) {
    Selects(q, x) && (cursor.Some? ==> Ahead(q.order, cursor.value, x))
  }

  /** The selected rows beyond the cursor row, in order. */
  function Beyond<V>(rows: Rows<V>, q: Query<V>, cursor: Option<Row<V>>): Rows<V> {
    if rows == [] then []
    else
      var rest := Beyond(rows[1..], q, cursor);
      if IsBeyond(q, cursor, rows[0]) then Insert(q.order, rows[0], rest)
      else rest
  }

  function Sizes<V>(rows: Rows<V>): seq<nat> { seq(|rows|, i requires 0 <= i < |rows| => rows[i].size) }

  function List<V>(rows: Rows<V>, q: Query<V>, limit: nat, after: Option<string>): Page<V> {
    var cursor := if after.Some? then Find(rows, q.kind, after.value) else None;
    if after.Some? && (cursor.None? || !Marks(q, cursor.value)) then InvalidCursor
    else
      var rest := Beyond(rows, q, cursor);
      var n := Shown(Sizes(rest), limit, 0, 0);
      Page(rest[..n], n < |rest|)
  }

  function LastOf<V>(page: Rows<V>): Option<string> { if page == [] then None else Some(page[|page| - 1].id) }

  // --- The store in place -------------------------------------------------------------------------------------

  class RecordStore<V(==)> {
    var rows: Rows<V>

    ghost predicate Valid()
      reads this
    {
      Keyed(rows)
    }

    constructor ()
      ensures Valid() && rows == []
    {
      rows := [];
    }

    /** A known row keeps its place and its number; a new one goes to the back with a larger number than all. */
    method Store(kind: string, id: string, value: V, size: nat)
      requires Valid()
      modifies this
      ensures Valid() && rows == Put(old(rows), kind, id, value, size)
      ensures forall i | 0 <= i < |old(rows)| && Names(old(rows)[i], kind, id) ::
                rows == old(rows)[i := Row(kind, id, old(rows)[i].at, value, size)]
      ensures (forall r | r in old(rows) :: !Names(r, kind, id)) ==>
                exists at: nat :: Tops(old(rows), at) && rows == old(rows) + [Row(kind, id, at, value, size)]
    {
      ghost var before := rows;
      PutFinds(rows, kind, id, value, size, kind, id);
      PutsInPlace(rows, kind, id, value, size);
      PutsBehind(rows, kind, id, value, size);
      var known := Find(rows, kind, id);
      if known.Some? {
        rows := Replaced(rows, known.value.(value := value, size := size));
      } else {
        rows := rows + [Row(kind, id, Top(rows) + 1, value, size)];
      }
      assert rows == Put(before, kind, id, value, size);
    }

    /** Takes out the one row of that name, and nothing else; the others stay in order. */
    method Drop(kind: string, id: string)
      requires Valid()
      modifies this
      ensures Valid() && forall r :: r in rows <==> r in old(rows) && !Names(r, kind, id)
      ensures forall i | 0 <= i < |old(rows)| && Names(old(rows)[i], kind, id) ::
                rows == old(rows)[..i] + old(rows)[i + 1..]
      ensures (forall r | r in old(rows) :: !Names(r, kind, id)) ==> rows == old(rows)
      ensures rows == Remove(old(rows), kind, id)
    {
      RemovedFinds(rows, kind, id, kind, id);
      RemovesOneRow(rows, kind, id);
      rows := Remove(rows, kind, id);
    }

    /** Reads the selection row by row until the limit or the budget stops it. */
    method ReadPage(q: Query<V>, limit: nat, after: Option<string>) returns (page: Page<V>)
      ensures page == List(rows, q, limit, after)
    {
      var cursor := None;
      if after.Some? {
        cursor := Find(rows, q.kind, after.value);
        if cursor.None? || !Marks(q, cursor.value) { return InvalidCursor; }
      }
      var selection := Beyond(rows, q, cursor);
      var visible: Rows<V> := [];
      var size: nat, i, more := 0, 0, false;
      ghost var sizes := Sizes(selection);
      while i < |selection| && !more
        invariant 0 <= i <= |selection| && |sizes| == |selection|
        invariant visible == selection[..i]
        invariant !more ==> Shown(sizes, limit, 0, 0) == i + Shown(sizes[i..], limit, i, size)
        invariant more ==> i < |selection| && Shown(sizes, limit, 0, 0) == i
        decreases |selection| - i, !more
      {
        assert sizes[i..][0] == selection[i].size && sizes[i..][1..] == sizes[i + 1..];
        if |visible| >= limit || (|visible| > 0 && size + selection[i].size > MAX_PAGE_CHARS) {
          more := true;
        } else {
          visible := visible + [selection[i]];
          size := size + selection[i].size;
          i := i + 1;
        }
      }
      return Page(visible, more);
    }
  }

  // --- What a page holds ---------------------------------------------------------------------------------------

  ghost predicate InOrder<V>(order: Order, rows: Rows<V>) {
    rows == [] || ((forall r | r in rows[1..] :: Ahead(order, rows[0], r)) && InOrder(order, rows[1..]))
  }

  lemma {:induction false} InsertedRows<V>(order: Order, r: Row<V>, sorted: Rows<V>, x: Row<V>)
    ensures x in Insert(order, r, sorted) <==> x == r || x in sorted
  {
    if sorted != [] && !Ahead(order, r, sorted[0]) {
      assert sorted == [sorted[0]] + sorted[1..];
      InsertedRows(order, r, sorted[1..], x);
    }
  }

  lemma {:induction false} InsertKeepsOrder<V>(order: Order, r: Row<V>, sorted: Rows<V>)
    requires InOrder(order, sorted) && forall x | x in sorted :: x.id != r.id
    ensures InOrder(order, Insert(order, r, sorted))
  {
    if sorted == [] {
    } else if Ahead(order, r, sorted[0]) {
      forall x | x in sorted ensures Ahead(order, r, x) {
        if x != sorted[0] { AheadIsTransitive(order, r, sorted[0], x); }
      }
      assert ([r] + sorted)[1..] == sorted;
    } else {
      assert sorted[0] in sorted;
      AheadIsTotal(order, r, sorted[0]);
      forall x | x in sorted[1..] ensures x.id != r.id { assert x in sorted; }
      InsertKeepsOrder(order, r, sorted[1..]);
      var rest := Insert(order, r, sorted[1..]);
      forall x | x in rest ensures Ahead(order, sorted[0], x) { InsertedRows(order, r, sorted[1..], x); }
      assert Insert(order, r, sorted)[1..] == rest;
    }
  }

  lemma {:induction false} BeyondRows<V>(rows: Rows<V>, q: Query<V>, cursor: Option<Row<V>>, x: Row<V>)
    ensures x in Beyond(rows, q, cursor) <==> x in rows && IsBeyond(q, cursor, x)
  {
    if rows != [] {
      BeyondRows(rows[1..], q, cursor, x);
      assert rows == [rows[0]] + rows[1..];
      if IsBeyond(q, cursor, rows[0]) { InsertedRows(q.order, rows[0], Beyond(rows[1..], q, cursor), x); }
    }
  }

  lemma {:induction false} BeyondInOrder<V>(rows: Rows<V>, q: Query<V>, cursor: Option<Row<V>>)
    requires Keyed(rows)
    ensures InOrder(q.order, Beyond(rows, q, cursor))
  {
    if rows != [] {
      BeyondInOrder(rows[1..], q, cursor);
      var rest := Beyond(rows[1..], q, cursor);
      if IsBeyond(q, cursor, rows[0]) {
        forall x | x in rest ensures x.id != rows[0].id { BeyondRows(rows[1..], q, cursor, x); }
        InsertKeepsOrder(q.order, rows[0], rest);
      }
    }
  }

  /** The rows beyond a cursor are exactly the selected ones that come after it, each once, in order. */
  lemma BeyondIsExact<V>(rows: Rows<V>, q: Query<V>, cursor: Option<Row<V>>)
    requires Keyed(rows)
    ensures InOrder(q.order, Beyond(rows, q, cursor))
    ensures forall x :: x in Beyond(rows, q, cursor) <==> x in rows && IsBeyond(q, cursor, x)
  {
    BeyondInOrder(rows, q, cursor);
    forall x ensures x in Beyond(rows, q, cursor) <==> x in rows && IsBeyond(q, cursor, x) {
      BeyondRows(rows, q, cursor, x);
    }
  }

  lemma {:induction false} OrderedAt<V>(order: Order, rows: Rows<V>, i: nat, j: nat)
    requires InOrder(order, rows) && i < j < |rows|
    ensures Ahead(order, rows[i], rows[j])
  {
    if i == 0 {
      assert rows[j] == rows[1..][j - 1];
    } else {
      OrderedAt(order, rows[1..], i - 1, j - 1);
    }
  }

  lemma OrderedPrefix<V>(order: Order, rows: Rows<V>, n: nat, x: Row<V>)
    requires InOrder(order, rows) && 0 < n <= |rows| && x in rows
    ensures x in rows[..n] <==> !Ahead(order, rows[n - 1], x)
  {
    var k :| 0 <= k < |rows| && rows[k] == x;
    if k < n {
      assert rows[..n][k] == x;
      if k < n - 1 {
        OrderedAt(order, rows, k, n - 1);
        if Ahead(order, rows[n - 1], x) {
          AheadIsTransitive(order, x, rows[n - 1], x);
          AheadIsStrict(order, x);
        }
      } else {
        AheadIsStrict(order, x);
      }
    } else {
      OrderedAt(order, rows, n - 1, k);
      if x in rows[..n] {
        var i :| 0 <= i < n && rows[i] == x;
        OrderedAt(order, rows, i, k);
        AheadIsStrict(order, x);
      }
    }
  }

  /** A page with room for a row is never empty while rows remain. */
  lemma PagesAdvance(sizes: seq<nat>, limit: nat)
    requires sizes != [] && limit > 0
    ensures Shown(sizes, limit, 0, 0) > 0
  {
  }

  /**
   What a page shows: each selected row after the cursor and no later than its last row, once and in
   order; and if no more remain, every selected row after the cursor.
   */
  lemma PageIsExact<V>(rows: Rows<V>, q: Query<V>, limit: nat, after: Option<string>, x: Row<V>)
    requires Keyed(rows) && limit > 0 && List(rows, q, limit, after).Page?
    ensures var page := List(rows, q, limit, after);
            var cursor := if after.Some? then Find(rows, q.kind, after.value) else None;
            && InOrder(q.order, page.data)
            && (page.more ==> page.data != [])
            && (x in page.data <==>
                && x in rows && IsBeyond(q, cursor, x)
                && (page.more ==> !Ahead(q.order, page.data[|page.data| - 1], x)))
  {
    var cursor := if after.Some? then Find(rows, q.kind, after.value) else None;
    var rest := Beyond(rows, q, cursor);
    var n := Shown(Sizes(rest), limit, 0, 0);
    BeyondIsExact(rows, q, cursor);
    PrefixInOrder(q.order, rest, n);
    if n < |rest| {
      PagesAdvance(Sizes(rest), limit);
      if x in rest { OrderedPrefix(q.order, rest, n, x); }
    } else {
      assert rest[..n] == rest;
    }
  }

  lemma {:induction false} PrefixInOrder<V>(order: Order, rows: Rows<V>, n: nat)
    requires InOrder(order, rows) && n <= |rows|
    ensures InOrder(order, rows[..n])
  {
    if n > 0 {
      PrefixInOrder(order, rows[1..], n - 1);
      assert rows[..n][1..] == rows[1..][..n - 1];
    }
  }

  // --- Following the cursors over an unchanging table ------------------------------------------------------------

  lemma {:induction false} FindsRow<V>(rows: Rows<V>, r: Row<V>)
    requires Keyed(rows) && r in rows
    ensures Find(rows, r.kind, r.id) == Some(r)
  {
    if r != rows[0] { FindsRow(rows[1..], r); }
  }

  lemma {:induction false} FindIsRow<V>(rows: Rows<V>, kind: string, id: string)
    ensures var r := Find(rows, kind, id);
            r.Some? ==> r.value in rows && r.value.kind == kind && r.value.id == id
    ensures Find(rows, kind, id).None? ==> forall r | r in rows :: r.kind != kind || r.id != id
  {
    if rows != [] {
      FindIsRow(rows[1..], kind, id);
      assert rows == [rows[0]] + rows[1..];
    }
  }

  lemma HeadIsRow<V>(rows: Rows<V>)
    ensures rows != [] ==> rows[0] in rows
  {
  }

  lemma TailRows<V>(order: Order, rows: Rows<V>, x: Row<V>)
    requires rows != [] && InOrder(order, rows)
    ensures x in rows[1..] <==> x in rows && x != rows[0]
  {
    assert rows == [rows[0]] + rows[1..];
    AheadIsStrict(order, rows[0]);
  }

  /** Two ordered lists with the same rows are the same list. */
  lemma {:induction false} OrderDecides<V>(order: Order, a: Rows<V>, b: Rows<V>)
    requires InOrder(order, a) && InOrder(order, b) && forall x :: x in a <==> x in b
    ensures a == b
  {
    if a == [] {
      HeadIsRow(b);
    } else {
      assert a[0] in a;
      assert b[0] in b;
      TailRows(order, a, b[0]);
      TailRows(order, b, a[0]);
      if a[0] != b[0] {
        AheadIsTransitive(order, a[0], b[0], a[0]);
        AheadIsStrict(order, a[0]);
      }
      forall x ensures x in a[1..] <==> x in b[1..] {
        TailRows(order, a, x);
        TailRows(order, b, x);
      }
      OrderDecides(order, a[1..], b[1..]);
    }
  }

  /** What is beyond the n-th row of a listing is the rest of that listing. */
  lemma RestIsBeyond<V>(rows: Rows<V>, q: Query<V>, cursor: Option<Row<V>>, n: nat)
    requires Keyed(rows) && 0 < n <= |Beyond(rows, q, cursor)|
    ensures var all := Beyond(rows, q, cursor); Beyond(rows, q, Some(all[n - 1])) == all[n..]
  {
    var all := Beyond(rows, q, cursor);
    BeyondIsExact(rows, q, cursor);
    BeyondIsExact(rows, q, Some(all[n - 1]));
    assert all[n - 1] in all;
    SuffixInOrder(q.order, all, n);
    forall x ensures x in all[n..] <==> x in Beyond(rows, q, Some(all[n - 1])) {
      if x in all { OrderedSuffix(q.order, all, n, x); }
      if x in Beyond(rows, q, Some(all[n - 1])) && cursor.Some? {
        AheadIsTransitive(q.order, cursor.value, all[n - 1], x);
      }
    }
    OrderDecides(q.order, all[n..], Beyond(rows, q, Some(all[n - 1])));
  }

  lemma {:induction false} SuffixInOrder<V>(order: Order, rows: Rows<V>, n: nat)
    requires InOrder(order, rows) && n <= |rows|
    ensures InOrder(order, rows[n..])
  {
    if n > 0 {
      SuffixInOrder(order, rows[1..], n - 1);
      assert rows[n..] == rows[1..][n - 1..];
    } else {
      assert rows[0..] == rows;
    }
  }

  lemma OrderedSuffix<V>(order: Order, rows: Rows<V>, n: nat, x: Row<V>)
    requires InOrder(order, rows) && 0 < n <= |rows| && x in rows
    ensures x in rows[n..] <==> Ahead(order, rows[n - 1], x)
  {
    OrderedPrefix(order, rows, n, x);
    assert rows == rows[..n] + rows[n..];
    if x in rows[n..] && x in rows[..n] {
      var i :| 0 <= i < n && rows[..n][i] == x;
      var j :| 0 <= j < |rows| - n && rows[n..][j] == x;
      OrderedAt(order, rows, i, n + j);
      AheadIsStrict(order, x);
    }
  }

  /** Pages read until none remain; `fuel` only bounds how long this looks. */
  function Follow<V>(rows: Rows<V>, q: Query<V>, limit: nat, after: Option<string>, fuel: nat): (Rows<V>, bool)
    decreases fuel
  {
    var page := List(rows, q, limit, after);
    if page.InvalidCursor? then ([], false)
    else if !page.more then (page.data, true)
    else if fuel == 0 then (page.data, false)
    else
      var (rest, done) := Follow(rows, q, limit, LastOf(page.data), fuel - 1);
      (page.data + rest, done)
  }

  /**
   Following `last_id` until nothing remains ends after at most one page per row, and the pages put
   together are the whole listing: every selected row once, in order, for any limit and row sizes.
   */
  lemma {:induction false} FollowingYieldsTheListing<V>(
      rows: Rows<V>, q: Query<V>, limit: nat, after: Option<string>, cursor: Option<Row<V>>, fuel: nat)
    requires Keyed(rows) && limit > 0 && fuel >= |Beyond(rows, q, cursor)|
    requires after.Some? <==> cursor.Some?
    requires cursor.Some? ==> Find(rows, q.kind, after.value) == cursor && Marks(q, cursor.value)
    ensures Follow(rows, q, limit, after, fuel) == (Beyond(rows, q, cursor), true)
    decreases fuel
  {
    var all := Beyond(rows, q, cursor);
    var n := Shown(Sizes(all), limit, 0, 0);
    if n == |all| {
      assert all[..n] == all;
    } else {
      PagesAdvance(Sizes(all), limit);
      LastIsACursor(rows, q, cursor, n);
      var last := all[n - 1];
      RestIsBeyond(rows, q, cursor, n);
      assert LastOf(all[..n]) == Some(last.id);
      FollowingYieldsTheListing(rows, q, limit, Some(last.id), Some(last), fuel - 1);
      assert all[..n] + all[n..] == all;
    }
  }

  lemma LastIsACursor<V>(rows: Rows<V>, q: Query<V>, cursor: Option<Row<V>>, n: nat)
    requires Keyed(rows) && 0 < n <= |Beyond(rows, q, cursor)|
    ensures var last := Beyond(rows, q, cursor)[n - 1]; Find(rows, q.kind, last.id) == Some(last) && Selects(q, last)
  {
    var last := Beyond(rows, q, cursor)[n - 1];
    assert last in Beyond(rows, q, cursor);
    BeyondRows(rows, q, cursor, last);
    FindsRow(rows, last);
  }

  // --- Following the cursors while the table changes ----------------------------------------------------------------

  datatype Change<V> = Update(kind: string, id: string, value: V, size: nat) | Delete(kind: string, id: string)
  datatype Move<V> = Change(change: Change<V>) | Read(limit: nat)

  /** A walk under way: the table as it is, the row it stopped at and everything it was shown. */
  datatype Walk<V> = Walk(rows: Rows<V>, at: Option<string>, seen: Rows<V>, done: bool, refused: bool)

  function Changed<V>(rows: Rows<V>, change: Change<V>): Rows<V> {
    match change
    case Update(kind, id, value, size) => Put(rows, kind, id, value, size)
    case Delete(kind, id) => Remove(rows, kind, id)
  }

  function Step<V>(w: Walk<V>, q: Query<V>, move: Move<V>): Walk<V> {
    match move
    case Change(change) => w.(rows := Changed(w.rows, change))
    case Read(limit) =>
      if w.done || w.refused then w
      else
        var page := List(w.rows, q, limit, w.at);
        if page.InvalidCursor? then w.(refused := true)
        else
          Walk(w.rows, if page.data == [] then w.at else LastOf(page.data), w.seen + page.data, !page.more, false)
  }

  function Walked<V>(w: Walk<V>, q: Query<V>, moves: seq<Move<V>>): Walk<V>
    decreases |moves|
  {
    if moves == [] then w else Walked(Step(w, q, moves[0]), q, moves[1..])
  }

  /** The row keeps its place and goes on matching, and nobody deletes the row the walk stands at. */
  ghost predicate Stays<V>(w: Walk<V>, q: Query<V>, id: string, at: nat) {
    && Find(w.rows, q.kind, id).Some? && Find(w.rows, q.kind, id).value.at == at && Selects(q, Find(w.rows, q.kind, id).value)
    && (w.at.Some? ==> Find(w.rows, q.kind, w.at.value).Some?)
  }

  ghost predicate Calm<V>(w: Walk<V>, q: Query<V>, moves: seq<Move<V>>, id: string)
    decreases |moves|
  {
    moves != [] ==>
    && (moves[0].Change? && moves[0].change.Delete? && moves[0].change.kind == q.kind ==>
          moves[0].change.id != id && w.at != Some(moves[0].change.id))
    && (moves[0].Change? && moves[0].change.Update? && moves[0].change.kind == q.kind && moves[0].change.id == id ==>
          q.filter(moves[0].change.value) && q.live(moves[0].change.value))
    && (moves[0].Read? ==> moves[0].limit > 0)
    && Calm(Step(w, q, moves[0]), q, moves[1..], id)
  }

  function Times<V>(seen: Rows<V>, id: string): nat {
    if seen == [] then 0 else (if seen[0].id == id then 1 else 0) + Times(seen[1..], id)
  }

  /** The walk has left the row behind. */
  predicate Passed<V>(w: Walk<V>, q: Query<V>, row: Row<V>) {
    w.done || (w.at.Some? && Find(w.rows, q.kind, w.at.value).Some?
               && !Ahead(q.order, Find(w.rows, q.kind, w.at.value).value, row))
  }

  /** The walk was shown the row `before` times, and once more exactly if it has passed it since. */
  ghost predicate Fair<V>(w: Walk<V>, q: Query<V>, id: string, at: nat, before: int) {
    && Keyed(w.rows) && Stays(w, q, id, at)
    && Times(w.seen, id) == before + if Passed(w, q, Find(w.rows, q.kind, id).value) then 1 else 0
  }

  lemma {:induction false} PutFinds<V>(rows: Rows<V>, kind: string, id: string, value: V, size: nat, otherKind: string, other: string)
    requires Keyed(rows)
    ensures var next := Find(Put(rows, kind, id, value, size), otherKind, other); var before := Find(rows, otherKind, other);
            && (before.Some? ==> next.Some? && next.value.at == before.value.at && next.value.id == before.value.id
                                 && next.value.kind == before.value.kind)
            && (before.Some? && !(kind == otherKind && id == other) ==> next == before)
            && (before.Some? && kind == otherKind && id == other ==> next.value.value == value)
    ensures Keyed(Put(rows, kind, id, value, size))
  {
    var known := Find(rows, kind, id);
    if known.Some? {
      FindIsRow(rows, kind, id);
      ReplacedFinds(rows, known.value.(value := value, size := size), otherKind, other);
    } else {
      AppendedFinds(rows, Row(kind, id, Top(rows) + 1, value, size), otherKind, other);
    }
  }

  lemma {:induction false} ReplacedFinds<V>(rows: Rows<V>, row: Row<V>, kind: string, id: string)
    requires Keyed(rows) && Find(rows, row.kind, row.id).Some? && Find(rows, row.kind, row.id).value.at == row.at
    ensures Find(Replaced(rows, row), kind, id) == if row.kind == kind && row.id == id then Some(row) else Find(rows, kind, id)
    ensures Keyed(Replaced(rows, row))
    ensures forall r | r in Replaced(rows, row) :: r == row || r in rows
  {
    if rows[0].kind == row.kind && rows[0].id == row.id {
      assert Replaced(rows, row)[1..] == rows[1..];
    } else {
      ReplacedFinds(rows[1..], row, kind, id);
      assert Replaced(rows, row)[1..] == Replaced(rows[1..], row);
    }
  }

  lemma {:induction false} AppendedFinds<V>(rows: Rows<V>, row: Row<V>, kind: string, id: string)
    requires Keyed(rows) && Find(rows, row.kind, row.id).None?
    ensures Find(rows, kind, id).Some? ==> Find(rows + [row], kind, id) == Find(rows, kind, id)
    ensures Keyed(rows + [row])
  {
    if rows != [] {
      AppendedFinds(rows[1..], row, kind, id);
      assert (rows + [row])[1..] == rows[1..] + [row];
    }
  }

  lemma {:induction false} RemovedFinds<V>(rows: Rows<V>, kind: string, id: string, otherKind: string, other: string)
    requires Keyed(rows)
    ensures Keyed(Remove(rows, kind, id)) && forall r | r in Remove(rows, kind, id) :: r in rows
    ensures !(kind == otherKind && id == other) ==> Find(Remove(rows, kind, id), otherKind, other) == Find(rows, otherKind, other)
  {
    if rows != [] {
      RemovedFinds(rows[1..], kind, id, otherKind, other);
      var rest := Remove(rows[1..], kind, id);
      if rows[0].kind == kind && rows[0].id == id {
        assert Remove(rows, kind, id) == [] + rest == rest;
      } else {
        assert Remove(rows, kind, id)[1..] == rest;
      }
    }
  }

  lemma ChangesAreFair<V>(w: Walk<V>, q: Query<V>, id: string, at: nat, before: int, change: Change<V>)
    requires Fair(w, q, id, at, before)
    requires change.Delete? && change.kind == q.kind ==> change.id != id && w.at != Some(change.id)
    requires change.Update? && change.kind == q.kind && change.id == id ==> q.filter(change.value) && q.live(change.value)
    ensures Fair(Step(w, q, Move.Change(change)), q, id, at, before)
  {
    FindIsRow(w.rows, q.kind, id);
    match change
    case Update(kind, other, value, size) =>
      PutFinds(w.rows, kind, other, value, size, q.kind, id);
      if w.at.Some? { PutFinds(w.rows, kind, other, value, size, q.kind, w.at.value); }
    case Delete(kind, other) =>
      RemovedFinds(w.rows, kind, other, q.kind, id);
      if w.at.Some? { RemovedFinds(w.rows, kind, other, q.kind, w.at.value); }
  }

  lemma {:induction false} TimesInOrder<V>(order: Order, rows: Rows<V>, row: Row<V>)
    requires InOrder(order, rows) && forall r | r in rows :: r.id == row.id ==> r == row
    ensures Times(rows, row.id) == if row in rows then 1 else 0
  {
    if rows != [] {
      assert rows[0] in rows && rows == [rows[0]] + rows[1..];
      TimesInOrder(order, rows[1..], row);
      TailRows(order, rows, row);
    }
  }

  lemma {:induction false} TimesAdd<V>(a: Rows<V>, b: Rows<V>, id: string)
    ensures Times(a + b, id) == Times(a, id) + Times(b, id)
  {
    if a == [] {
      assert a + b == b;
    } else {
      assert (a + b)[1..] == a[1..] + b;
      TimesAdd(a[1..], b, id);
    }
  }

  lemma ReadsAreFair<V>(w: Walk<V>, q: Query<V>, id: string, at: nat, before: int, limit: nat)
    requires Fair(w, q, id, at, before) && limit > 0 && !w.done && !w.refused
    requires List(w.rows, q, limit, w.at).Page?
    ensures Fair(Step(w, q, Read(limit)), q, id, at, before)
  {
    var page := List(w.rows, q, limit, w.at);
    var row := Find(w.rows, q.kind, id).value;
    FindIsRow(w.rows, q.kind, id);
    PageIsExact(w.rows, q, limit, w.at, row);
    forall r | r in page.data && r.id == id ensures r == row {
      PageIsExact(w.rows, q, limit, w.at, r);
      FindsRow(w.rows, r);
    }
    TimesInOrder(q.order, page.data, row);
    TimesAdd(w.seen, page.data, id);
    if page.data != [] {
      var last := page.data[|page.data| - 1];
      PageIsExact(w.rows, q, limit, w.at, last);
      FindsRow(w.rows, last);
      if w.at.Some? && Ahead(q.order, last, row) {
        AheadIsTransitive(q.order, Find(w.rows, q.kind, w.at.value).value, last, row);
      }
    }
  }

  lemma {:induction false} WalkingIsFair<V>(w: Walk<V>, q: Query<V>, id: string, at: nat, before: int, moves: seq<Move<V>>)
    requires Fair(w, q, id, at, before) && Calm(w, q, moves, id)
    ensures Fair(Walked(w, q, moves), q, id, at, before)
    decreases |moves|
  {
    if moves != [] {
      match moves[0] {
        case Change(change) => ChangesAreFair(w, q, id, at, before, change);
        case Read(limit) =>
          if !w.done && !w.refused && List(w.rows, q, limit, w.at).Page? { ReadsAreFair(w, q, id, at, before, limit); }
      }
      WalkingIsFair(Step(w, q, moves[0]), q, id, at, before, moves[1..]);
    }
  }

  /**
   A row that is there from the start, keeps matching and is not deleted is shown exactly once by a
   walk that ends, in either order, whatever is updated, appended or deleted between its pages, as
   long as the row the walk stands at is not deleted; a walk under way has shown it at most once.
   */
  lemma RowsThatStayAreShownOnce<V>(rows: Rows<V>, q: Query<V>, row: Row<V>, moves: seq<Move<V>>)
    requires Keyed(rows) && row in rows && Selects(q, row)
    requires Calm(Walk(rows, None, [], false, false), q, moves, row.id)
    ensures var w := Walked(Walk(rows, None, [], false, false), q, moves);
            Times(w.seen, row.id) <= 1 && (w.done ==> Times(w.seen, row.id) == 1)
  {
    FindsRow(rows, row);
    WalkingIsFair(Walk(rows, None, [], false, false), q, row.id, row.at, 0, moves);
  }

  lemma {:induction false} TopIsLargest<V>(rows: Rows<V>, r: Row<V>)
    requires r in rows
    ensures Top(rows) >= r.at
  {
    if r != rows[0] { TopIsLargest(rows[1..], r); }
  }

  lemma {:induction false} RemovedRows<V>(rows: Rows<V>, kind: string, id: string, r: Row<V>)
    ensures r in Remove(rows, kind, id) <==> r in rows && !(r.kind == kind && r.id == id)
  {
    if rows != [] {
      assert rows == [rows[0]] + rows[1..];
      RemovedRows(rows[1..], kind, id, r);
    }
  }

  lemma {:induction false} KeyedAt<V>(rows: Rows<V>, i: nat, j: nat)
    requires Keyed(rows) && i < j < |rows|
    ensures !Names(rows[j], rows[i].kind, rows[i].id)
  {
    if i == 0 {
      assert rows[j] == rows[1..][j - 1] && rows[j] in rows[1..];
    } else {
      KeyedAt(rows[1..], i - 1, j - 1);
    }
  }

  lemma {:induction false} ReplacedAt<V>(rows: Rows<V>, row: Row<V>, i: nat)
    requires Keyed(rows) && i < |rows| && Names(rows[i], row.kind, row.id)
    ensures Find(rows, row.kind, row.id) == Some(rows[i]) && Replaced(rows, row) == rows[i := row]
  {
    if i == 0 {
      assert rows[0 := row] == [row] + rows[1..];
    } else {
      KeyedAt(rows, 0, i);
      ReplacedAt(rows[1..], row, i - 1);
      assert rows[i := row] == [rows[0]] + rows[1..][i - 1 := row];
    }
  }

  lemma {:induction false} RemovedNone<V>(rows: Rows<V>, kind: string, id: string)
    requires forall r | r in rows :: !Names(r, kind, id)
    ensures Remove(rows, kind, id) == rows && Find(rows, kind, id).None?
  {
    if rows != [] {
      assert rows == [rows[0]] + rows[1..] && rows[0] in rows;
      RemovedNone(rows[1..], kind, id);
    }
  }

  lemma {:induction false} RemovedAt<V>(rows: Rows<V>, kind: string, id: string, i: nat)
    requires Keyed(rows) && i < |rows| && Names(rows[i], kind, id)
    ensures Remove(rows, kind, id) == rows[..i] + rows[i + 1..]
  {
    if i == 0 {
      RemovedNone(rows[1..], kind, id);
      assert [] + rows[1..] == rows[1..] == rows[..0] + rows[1..];
    } else {
      KeyedAt(rows, 0, i);
      RemovedAt(rows[1..], kind, id, i - 1);
      assert rows[..i] + rows[i + 1..] == [rows[0]] + (rows[1..][..i - 1] + rows[1..][i..]);
    }
  }

  /** What `Drop` does, told apart from how. */
  lemma RemovesOneRow<V>(rows: Rows<V>, kind: string, id: string)
    requires Keyed(rows)
    ensures forall r :: r in Remove(rows, kind, id) <==> r in rows && !Names(r, kind, id)
    ensures forall i | 0 <= i < |rows| && Names(rows[i], kind, id) ::
              Remove(rows, kind, id) == rows[..i] + rows[i + 1..]
    ensures (forall r | r in rows :: !Names(r, kind, id)) ==> Remove(rows, kind, id) == rows
  {
    forall r ensures r in Remove(rows, kind, id) <==> r in rows && !Names(r, kind, id) { RemovedRows(rows, kind, id, r); }
    forall i | 0 <= i < |rows| && Names(rows[i], kind, id)
      ensures Remove(rows, kind, id) == rows[..i] + rows[i + 1..]
    {
      RemovedAt(rows, kind, id, i);
    }
    if forall r | r in rows :: !Names(r, kind, id) { RemovedNone(rows, kind, id); }
  }

  lemma PutsInPlace<V>(rows: Rows<V>, kind: string, id: string, value: V, size: nat)
    requires Keyed(rows)
    ensures forall i | 0 <= i < |rows| && Names(rows[i], kind, id) ::
              Put(rows, kind, id, value, size) == rows[i := Row(kind, id, rows[i].at, value, size)]
  {
    forall i | 0 <= i < |rows| && Names(rows[i], kind, id)
      ensures Put(rows, kind, id, value, size) == rows[i := Row(kind, id, rows[i].at, value, size)]
    {
      ReplacedAt(rows, Row(kind, id, rows[i].at, value, size), i);
    }
  }

  lemma PutsBehind<V>(rows: Rows<V>, kind: string, id: string, value: V, size: nat)
    ensures (forall r | r in rows :: !Names(r, kind, id)) ==>
              exists at: nat :: Tops(rows, at) && Put(rows, kind, id, value, size) == rows + [Row(kind, id, at, value, size)]
  {
    if forall r | r in rows :: !Names(r, kind, id) {
      RemovedNone(rows, kind, id);
      forall r | r in rows ensures r.at < Top(rows) + 1 { TopIsLargest(rows, r); }
      assert Tops(rows, Top(rows) + 1);
    }
  }

  lemma {:induction false} FindAppended<V>(rows: Rows<V>, row: Row<V>)
    requires forall r | r in rows :: r.kind != row.kind || r.id != row.id
    ensures Find(rows + [row], row.kind, row.id) == Some(row)
  {
    if rows != [] {
      assert rows[0] in rows && (rows + [row])[1..] == rows[1..] + [row];
      FindAppended(rows[1..], row);
    }
  }

  /** A row deleted and put again comes back behind every row of the store. */
  lemma RecreatedGoesLast<V>(rows: Rows<V>, kind: string, id: string, value: V, size: nat, row: Row<V>)
    requires Keyed(rows) && Find(rows, row.kind, row.id) == Some(row) && !(row.kind == kind && row.id == id)
    ensures var next := Put(Remove(rows, kind, id), kind, id, value, size);
            && Keyed(next) && Find(next, row.kind, row.id) == Some(row)
            && Find(next, kind, id).Some? && Find(next, kind, id).value.at > row.at
  {
    var left := Remove(rows, kind, id);
    FindIsRow(rows, row.kind, row.id);
    RemovedFinds(rows, kind, id, row.kind, row.id);
    RemovedRows(rows, kind, id, row);
    forall r | r in left ensures r.kind != kind || r.id != id { RemovedRows(rows, kind, id, r); }
    FindIsRow(left, kind, id);
    TopIsLargest(left, row);
    FindAppended(left, Row(kind, id, Top(left) + 1, value, size));
    AppendedFinds(left, Row(kind, id, Top(left) + 1, value, size), row.kind, row.id);
  }

  lemma {:induction false} TimesGrow<V>(w: Walk<V>, q: Query<V>, moves: seq<Move<V>>, id: string)
    ensures Times(Walked(w, q, moves).seen, id) >= Times(w.seen, id)
    decreases |moves|
  {
    if moves != [] {
      if moves[0].Read? && List(w.rows, q, moves[0].limit, w.at).Page? {
        TimesAdd(w.seen, List(w.rows, q, moves[0].limit, w.at).data, id);
      }
      TimesGrow(Step(w, q, moves[0]), q, moves[1..], id);
    }
  }

  /** The walk after the row it stands at was deleted and put again. */
  function Recreated<V>(w: Walk<V>, q: Query<V>, value: V, size: nat): Walk<V>
    requires w.at.Some?
  {
    Walked(w, q, [Change(Delete(q.kind, w.at.value)), Change(Update(q.kind, w.at.value, value, size))])
  }

  lemma RecreatingChanges<V>(w: Walk<V>, q: Query<V>, value: V, size: nat)
    requires w.at.Some?
    ensures Recreated(w, q, value, size)
            == w.(rows := Put(Remove(w.rows, q.kind, w.at.value), q.kind, w.at.value, value, size))
  {
    var moves: seq<Move<V>> := [Change(Delete(q.kind, w.at.value)), Change(Update(q.kind, w.at.value, value, size))];
    var left := Step(w, q, moves[0]);
    assert moves[1..] == [moves[1]] && moves[1..][1..] == [];
    assert Walked(left, q, [moves[1]]) == Walked(Step(left, q, moves[1]), q, []);
  }

  /**
   The proviso is needed, and this is what happens without it. If the row a walk stands at is deleted and
   put again, it comes back behind every row of the store. An ascending walk then never shows a row again
   that was there: those it had not reached are skipped. A descending walk starts over: those it had shown
   are shown once more. Both hold for every row that stays, however the walk goes on.
   */
  lemma RecreatedCursorsStartOver<V>(rows: Rows<V>, q: Query<V>, row: Row<V>, first: seq<Move<V>>,
                                     value: V, size: nat, later: seq<Move<V>>)
    requires Keyed(rows) && row in rows && Selects(q, row)
    requires Calm(Walk(rows, None, [], false, false), q, first, row.id)
    requires var w := Walked(Walk(rows, None, [], false, false), q, first);
             && !w.done && w.at.Some? && w.at.value != row.id && Calm(Recreated(w, q, value, size), q, later, row.id)
    ensures var w := Walked(Walk(rows, None, [], false, false), q, first);
            var end := Walked(Recreated(w, q, value, size), q, later);
            if q.order.Ascending? then Times(end.seen, row.id) == Times(w.seen, row.id)
            else Times(end.seen, row.id) <= Times(w.seen, row.id) + 1
                 && (end.done ==> Times(end.seen, row.id) == Times(w.seen, row.id) + 1)
  {
    var start := Walk(rows, None, [], false, false);
    FindsRow(rows, row);
    WalkingIsFair(start, q, row.id, row.at, 0, first);
    var w := Walked(start, q, first);
    RecreatingIsFair(w, q, row.id, row.at, value, size);
    var again := Recreated(w, q, value, size);
    var before := if q.order.Ascending? then Times(w.seen, row.id) - 1 else Times(w.seen, row.id);
    WalkingIsFair(again, q, row.id, row.at, before, later);
    TimesGrow(again, q, later, row.id);
  }

  lemma RecreatingIsFair<V>(w: Walk<V>, q: Query<V>, id: string, at: nat, value: V, size: nat)
    requires Keyed(w.rows) && Stays(w, q, id, at) && !w.done && w.at.Some? && w.at.value != id
    ensures var again := Recreated(w, q, value, size);
            && again.seen == w.seen
            && Fair(again, q, id, at, if q.order.Ascending? then Times(w.seen, id) - 1 else Times(w.seen, id))
  {
    var row := Find(w.rows, q.kind, id).value;
    FindIsRow(w.rows, q.kind, id);
    RecreatedGoesLast(w.rows, q.kind, w.at.value, value, size, row);
    RecreatingChanges(w, q, value, size);
  }

  /**
   So a walk in ascending order can end without having shown a row that was there throughout: it reads one
   row of two, that row is deleted and put again, and its next page is its last.
   */
  lemma RecreatedCursorSkipsRows(one: string, other: string)
    requires one != other
    ensures var q := Query("item", (v: int) => true, (v: int) => true, Ascending);
            var rows := [Row("item", one, 1, 0, 1), Row("item", other, 2, 0, 1)];
            var end := Walked(Walk(rows, None, [], false, false), q,
                              [Read(1), Change(Delete("item", one)), Change(Update("item", one, 0, 1)), Read(1)]);
            end.done && Times(end.seen, other) == 0 && Find(end.rows, "item", other) == Some(rows[1])
  {
    var q := Query("item", (v: int) => true, (v: int) => true, Ascending);
    var a, b := Row("item", one, 1, 0, 1), Row("item", other, 2, 0, 1);
    var moves: seq<Move<int>> := [Read(1), Change(Delete("item", one)), Change(Update("item", one, 0, 1)), Read(1)];
    var w0 := Walk([a, b], None, [], false, false);
    ShowsTheFirst(q, a, b);
    var w1 := Walk([a, b], Some(one), [a], false, false);
    assert Step(w0, q, moves[0]) == w1;
    RemovesTheFirst(a, b);
    var w2 := w1.(rows := [b]);
    assert Step(w1, q, moves[1]) == w2;
    var c := Row("item", one, 3, 0, 1);
    var w3 := w1.(rows := [b, c]);
    assert [b][1..] == [] && [b] + [c] == [b, c];
    assert Find([b], "item", one) == None && Top([b]) == 2;
    assert Step(w2, q, moves[2]) == w3;
    ShowsNoneAtTheEnd(q, b, c);
    var w4 := Walk([b, c], Some(one), [a], true, false);
    assert Step(w3, q, moves[3]) == w4;
    FourMoves(w0, q, moves);
    assert [a][1..] == [] && Times([a], other) == 0;
  }

  lemma ShowsTheFirst<V>(q: Query<V>, a: Row<V>, b: Row<V>)
    requires Selects(q, a) && Selects(q, b) && Ahead(q.order, a, b)
    ensures List([a, b], q, 1, None) == Page([a], true)
  {
    assert [a, b][1..] == [b] && [b][1..] == [];
    assert Beyond([b], q, None) == [b];
    assert Beyond([a, b], q, None) == [a] + [b] == [a, b];
    assert Shown(Sizes([a, b]), 1, 0, 0) == 1 && [a, b][..1] == [a];
  }

  lemma ShowsNoneAtTheEnd<V>(q: Query<V>, b: Row<V>, c: Row<V>)
    requires Marks(q, c) && b.kind == c.kind && b.id != c.id && Ahead(q.order, b, c)
    ensures List([b, c], q, 1, Some(c.id)) == Page([], false)
  {
    assert [b, c][1..] == [c] && [c][1..] == [];
    assert Find([c], c.kind, c.id) == Some(c) && Find([b, c], c.kind, c.id) == Some(c);
    AheadIsStrict(q.order, c);
    if Ahead(q.order, c, b) { AheadIsTransitive(q.order, c, b, c); }
    assert Beyond([c], q, Some(c)) == [];
    assert Beyond([b, c], q, Some(c)) == [];
  }

  lemma RemovesTheFirst<V>(a: Row<V>, b: Row<V>)
    requires a.id != b.id
    ensures Remove([a, b], a.kind, a.id) == [b]
  {
    assert [a, b][1..] == [b] && [b][1..] == [];
    assert Remove([b], a.kind, a.id) == [b] + [];
    assert [] + [b] == [b];
  }

  lemma FourMoves<V>(w: Walk<V>, q: Query<V>, moves: seq<Move<V>>)
    requires |moves| == 4
    ensures Walked(w, q, moves) == Step(Step(Step(Step(w, q, moves[0]), q, moves[1]), q, moves[2]), q, moves[3])
  {
    var one := Step(w, q, moves[0]);
    var two := Step(one, q, moves[1]);
    var three := Step(two, q, moves[2]);
    var four := Step(three, q, moves[3]);
    assert moves[1..][0] == moves[1] && moves[1..][1..] == moves[2..] && moves[2..][0] == moves[2];
    assert moves[2..][1..] == moves[3..] && moves[3..][0] == moves[3] && moves[3..][1..] == [];
    assert Walked(four, q, []) == four;
    assert Walked(three, q, moves[3..]) == four;
    assert Walked(two, q, moves[2..]) == four;
    assert Walked(one, q, moves[1..]) == four;
  }
}
