/** Listing an entity type through the index, page by page (shared/dynamodb.py,
    `list_page` and `list`), for every way the backend may cut the pages. */
module Pagination {
  import opened Repository

  /** An index entry; `key` identifies the item and serves as the cursor. */
  datatype Row<+D> = Row(key: string, entityType: string, data: D)

  /** What the backend decides for one query: how many rows to return, and
      whether to name a last key although nothing follows it. */
  datatype Cut = Cut(size: nat, cursorAtEnd: bool)

  datatype Page<+D> = Page(rows: seq<Row<D>>, cursor: Option<string>)

  ghost predicate UniqueKeys<D>(index: seq<Row<D>>) {
    forall i, j | 0 <= i < j < |index| :: index[i].key != index[j].key
  }

  /** The rows of one entity type, in index order. */
  function OfType<D>(index: seq<Row<D>>, entityType: string): seq<Row<D>> {
    if index == [] then []
    else (if index[0].entityType == entityType then [index[0]] else []) + OfType(index[1..], entityType)
  }

  /** The rows after the one a cursor names. */
  function AfterKey<D>(rows: seq<Row<D>>, key: string): seq<Row<D>> {
    if rows == [] then []
    else if rows[0].key == key then rows[1..]
    else AfterKey(rows[1..], key)
  }

  function Clamp(limit: int): (n: nat)
    ensures 1 <= n <= 200
  {
    if limit < 1 then 1 else if limit > 200 then 200 else limit
  }

  function Min(a: nat, b: nat): nat {
    if a < b then a else b
  }

  /** The query contract: a page holds at most `limit` rows, at least one while
      there are any, and names its last row as the cursor if more follow. */
  function Query<D>(index: seq<Row<D>>, entityType: string, limit: nat, cursor: Option<string>, cut: Cut): Page<D>
    requires limit >= 1
  {
    var all := OfType(index, entityType);
    var rest := if cursor.None? then all else AfterKey(all, cursor.value);
    if rest == [] then Page([], None)
    else
      var n := Min(Min(limit, |rest|), cut.size + 1);
      Page(rest[..n], if n < |rest| || cut.cursorAtEnd then Some(rest[n - 1].key) else None)
  }

  function Data<D>(rows: seq<Row<D>>): seq<D> {
    seq(|rows|, i requires 0 <= i < |rows| => rows[i].data)
  }

  lemma {:induction false} OfTypeUnique<D>(index: seq<Row<D>>, entityType: string)
    requires UniqueKeys(index)
    ensures UniqueKeys(OfType(index, entityType))
    ensures forall r | r in OfType(index, entityType) :: r in index
    decreases |index|
  {
    if index != [] {
      var rest := OfType(index[1..], entityType);
      OfTypeUnique(index[1..], entityType);
      forall j | 0 <= j < |rest| ensures rest[j].key != index[0].key {
        assert rest[j] in index[1..];
        var k :| 0 <= k < |index[1..]| && index[1..][k] == rest[j];
        assert index[k + 1] == rest[j];
      }
    }
  }

  lemma {:induction false} CursorResumes<D>(rows: seq<Row<D>>, n: nat)
    requires UniqueKeys(rows) && 1 <= n <= |rows|
    ensures AfterKey(rows, rows[n - 1].key) == rows[n..]
    decreases n
  {
    if n > 1 {
      assert rows[1..][n - 2] == rows[n - 1];
      CursorResumes(rows[1..], n - 1);
      assert rows[1..][n - 1..] == rows[n..];
    }
  }

  /** Where a listing stands after `done` rows: at the start, or behind a cursor. */
  ghost predicate StandsAt<D>(all: seq<Row<D>>, cursor: Option<string>, done: nat) {
    done <= |all| && if cursor.None? then done == 0 else done >= 1 && cursor.value == all[done - 1].key
  }

  lemma PageContinues<D>(
    index: seq<Row<D>>, entityType: string, limit: nat, done: nat, cursor: Option<string>, cut: Cut)
    requires UniqueKeys(index) && StandsAt(OfType(index, entityType), cursor, done) && limit >= 1
    ensures var all, p := OfType(index, entityType), Query(index, entityType, limit, cursor, cut);
            && done + |p.rows| <= |all| && p.rows == all[done..done + |p.rows|]
            && |p.rows| <= limit && (done < |all| ==> |p.rows| >= 1)
            && (p.cursor.None? ==> done + |p.rows| == |all|)
            && (p.cursor.Some? ==> |p.rows| >= 1 && StandsAt(all, p.cursor, done + |p.rows|))
  {
    hide OfType, AfterKey, UniqueKeys;
    var all, p := OfType(index, entityType), Query(index, entityType, limit, cursor, cut);
    OfTypeUnique(index, entityType);
    if cursor.Some? {
      CursorResumes(all, done);
    } else {
      assert all[0..] == all;
    }
    var rest, n := all[done..], |p.rows|;
    assert p.rows == rest[..n] && rest[..n] == all[done..done + n];
    if p.cursor.Some? {
      assert rest[n - 1] == all[done + n - 1];
    }
  }

  lemma DataExtends<D>(all: seq<Row<D>>, i: nat, j: nat)
    requires i <= j <= |all|
    ensures Data(all[..i]) + Data(all[i..j]) == Data(all[..j])
  {
  }

  /** `list_page`: never more than the clamped limit. Called where an earlier page
      ended, it returns the next stretch of the entity type's rows, at least one
      while any remain; a cursor names the last row returned, and without one
      nothing remains. */
  method ListPage<D>(
    index: seq<Row<D>>, entityType: string, limit: int, cursor: Option<string>, cut: Cut, ghost done: nat)
    returns (page: seq<D>, next: Option<string>)
    ensures |page| <= 200 && (limit >= 1 ==> |page| <= limit) && (limit < 1 ==> |page| <= 1)
    ensures next.Some? ==> |page| >= 1
    ensures var all := OfType(index, entityType);
            UniqueKeys(index) && StandsAt(all, cursor, done) ==>
              && done + |page| <= |all| && page == Data(all[done..done + |page|])
              && (done < |all| ==> |page| >= 1)
              && (next.None? ==> done + |page| == |all|)
              && (next.Some? ==> next.value == all[done + |page| - 1].key)
  {
    hide OfType, AfterKey, UniqueKeys;
    if UniqueKeys(index) && StandsAt(OfType(index, entityType), cursor, done) {
      PageContinues(index, entityType, Clamp(limit), done, cursor, cut);
    }
    var p := Query(index, entityType, Clamp(limit), cursor, cut);
    page, next := Data(p.rows), p.cursor;
  }

  /** `list`: whatever page sizes and trailing cursors the backend chooses, the
      loop ends and yields exactly the entity type's items in index order. */
  method List<D>(index: seq<Row<D>>, entityType: string, cuts: nat -> Cut) returns (items: seq<D>)
    requires UniqueKeys(index)
    ensures items == Data(OfType(index, entityType))
  {
    hide OfType, Data;
    ghost var all := OfType(index, entityType);
    items := [];
    assert Data(all[..0]) == [] by { NoData(all[..0]); }
    var cursor: Option<string> := None;
    var calls := 0;
    ghost var done := 0;
    while true
      invariant StandsAt(all, cursor, done) && items == Data(all[..done])
      decreases |all| - done
    {
      var page, next := ListPage(index, entityType, 200, cursor, cuts(calls), done);
      DataExtends(all, done, done + |page|);
      items := items + page;
      done := done + |page|;
      calls := calls + 1;
      cursor := next;
      if cursor.None? {
        break;
      }
    }
    assert all[..done] == all;
  }

  lemma NoData<D>(rows: seq<Row<D>>)
    requires rows == []
    ensures Data(rows) == []
  {
  }

  lemma {:induction false} OfTypeIsTheFilter<D>(index: seq<Row<D>>, entityType: string, r: Row<D>)
    ensures r in OfType(index, entityType) <==> r in index && r.entityType == entityType
    decreases |index|
  {
    if index != [] {
      OfTypeIsTheFilter(index[1..], entityType, r);
      assert index == [index[0]] + index[1..];
    }
  }

  /** Splitting the index splits the listing: nothing is reordered. */
  lemma {:induction false} OfTypeConcatenates<D>(a: seq<Row<D>>, b: seq<Row<D>>, entityType: string)
    ensures OfType(a + b, entityType) == OfType(a, entityType) + OfType(b, entityType)
    decreases |a|
  {
    if a == [] {
      assert a + b == b;
    } else {
      OfTypeConcatenates(a[1..], b, entityType);
      assert (a + b)[1..] == a[1..] + b && (a + b)[0] == a[0];
      var head := if a[0].entityType == entityType then [a[0]] else [];
      var x, y := OfType(a[1..], entityType), OfType(b, entityType);
      assert OfType(a + b, entityType) == head + (x + y);
      assert head + (x + y) == (head + x) + y;
    }
  }
}
