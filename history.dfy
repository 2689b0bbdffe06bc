/**
 * The prediction tables. Each of the three SQLite tables has an
 * `INTEGER PRIMARY KEY AUTOINCREMENT` id, is only ever inserted into, and
 * is listed with `ORDER BY id DESC`. A table is modelled in memory as the
 * rows in insertion order and the id the next insert receives.
 */
module History {

  /** A stored row together with the id the table assigned to it. */
  datatype Entry<R> = Entry(id: int, row: R)

  /** Ids strictly increase along `s`. */
  predicate Ascending<R>(s: seq<Entry<R>>) {
    forall i, j :: 0 <= i < j < |s| ==> s[i].id < s[j].id
  }

  /** Ids strictly decrease along `s`. */
  predicate Descending<R>(s: seq<Entry<R>>) {
    forall i, j :: 0 <= i < j < |s| ==> s[i].id > s[j].id
  }

  /** The elements of `s` from last to first. */
  function Reverse<T>(s: seq<T>): (r: seq<T>)
    ensures |r| == |s|
    ensures forall i :: 0 <= i < |s| ==> r[i] == s[|s| - 1 - i]
    ensures multiset(r) == multiset(s)
  {
    if s == [] then []
    else
      assert s == s[..|s| - 1] + [s[|s| - 1]];
      [s[|s| - 1]] + Reverse(s[..|s| - 1])
  }

  class Table<R> {
    /** The rows in insertion order. */
    var rows: seq<Entry<R>>
    /** The id the next insert assigns. */
    var nextId: int

    /** Ids start at 1, strictly increase with insertion, and stay below the counter. */
    ghost predicate Valid()
      reads this
    {
      && 1 <= nextId
      && Ascending(rows)
      && forall i :: 0 <= i < |rows| ==> 1 <= rows[i].id < nextId
    }

    /** A newly created, empty table. */
    constructor ()
      ensures Valid()
      ensures rows == [] && nextId == 1
    {
      rows := [];
      nextId := 1;
    }

    /**
     * `SELECT * FROM … ORDER BY id DESC`: the same rows, ordered by
     * strictly decreasing id, so the newest row comes first.
     */
    function NewestFirst(): (listing: seq<Entry<R>>)
      reads this
      requires Valid()
      ensures multiset(listing) == multiset(rows)
      ensures Descending(listing)
    {
      Reverse(rows)
    }

    /**
     * `INSERT INTO …`: the row is appended under a fresh id, greater than
     * every id already in the table, and heads the next listing.
     */
    method Insert(row: R) returns (id: int)
      requires Valid()
      modifies this
      ensures Valid()
      ensures id == old(nextId) && nextId == id + 1
      ensures rows == old(rows) + [Entry(id, row)]
      ensures forall i :: 0 <= i < |old(rows)| ==> old(rows)[i].id < id
      ensures NewestFirst()[0] == Entry(id, row)
    {
      id := nextId;
      rows := rows + [Entry(id, row)];
      nextId := nextId + 1;
    }
  }

  /**
   * The history page's loop over a listing: every row, newest first, is
   * turned into what the page shows for it.
   */
  method Display<R, V>(table: Table<R>, show: R -> V) returns (shown: seq<V>)
    requires table.Valid()
    ensures |shown| == |table.rows|
    ensures forall i :: 0 <= i < |shown| ==> shown[i] == show(table.NewestFirst()[i].row)
  {
    var listing := table.NewestFirst();
    shown := [];
    for k := 0 to |listing|
      invariant |shown| == k
      invariant forall i :: 0 <= i < k ==> shown[i] == show(listing[i].row)
    {
      shown := shown + [show(listing[k].row)];
    }
  }
}
