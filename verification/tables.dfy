/**
 Tables as the two data migrations see them.

 A legacy table is read with `Model.objects.all()`, which yields its rows in
 an order the database chooses; it is modelled as a sequence of rows, and
 every lemma below holds for every such order. A new table is written with
 `save()` on an instance carrying an explicit primary key, which inserts the
 row or overwrites the row with that key; it is modelled as a map from
 primary key to the row's other columns.
 */
module Tables {

  /** A row of a table: its primary key and its other columns. */
  datatype Row<T> = Row(id: int, fields: T)

  datatype Option<T> = None | Some(value: T)

  /** The primary keys of a sequence of rows. */
  function Ids<T>(rows: seq<Row<T>>): set<int>
  {
    set i | 0 <= i < |rows| :: rows[i].id
  }

  /** No two rows share a primary key, as in any table that has one. */
  predicate DistinctIds<T>(rows: seq<Row<T>>)
  {
    forall i, j :: 0 <= i < j < |rows| ==> rows[i].id != rows[j].id
  }

  /** Row `i` is the last one in `rows` that carries its primary key. */
  predicate LastWithItsId<T>(rows: seq<Row<T>>, i: int)
    requires 0 <= i < |rows|
  {
    forall j :: i < j < |rows| ==> rows[j].id != rows[i].id
  }

  /** `Model.objects.get(id=key)`: the row with that primary key, or None
      where the ORM raises DoesNotExist. */
  function Get<T>(t: map<int, T>, key: int): (r: Option<Row<T>>)
    ensures r.Some? <==> key in t
    ensures r.Some? ==> r.value.id == key && r.value.fields == t[key]
  {
    if key in t then Some(Row(key, t[key])) else None
  }

  /** The table `t` after `save()` of each row of `rows`, first to last. */
  function SaveAll<T>(t: map<int, T>, rows: seq<Row<T>>): (r: map<int, T>)
    ensures r.Keys == t.Keys + Ids(rows)
    ensures forall key :: key in t && key !in Ids(rows) ==> r[key] == t[key]
    decreases |rows|
  {
    if rows == [] then t
    else
      var last := rows[|rows| - 1];
      IdsOfPrefix(rows);
      SaveAll(t, rows[..|rows| - 1])[last.id := last.fields]
  }

  lemma IdsOfPrefix<T>(rows: seq<Row<T>>)
    requires rows != []
    ensures Ids(rows) == Ids(rows[..|rows| - 1]) + {rows[|rows| - 1].id}
  {
    var prefix := rows[..|rows| - 1];
    forall key | key in Ids(rows) ensures key in Ids(prefix) + {rows[|rows| - 1].id} {
      var i :| 0 <= i < |rows| && rows[i].id == key;
      if i < |rows| - 1 {
        assert prefix[i].id == key;
      }
    }
    forall key | key in Ids(prefix) ensures key in Ids(rows) {
      var i :| 0 <= i < |prefix| && prefix[i].id == key;
      assert rows[i].id == key;
    }
  }

  /** A saved row ends up in the table unless a later row with the same
      primary key overwrites it. */
  lemma {:induction false} SaveAllStores<T>(t: map<int, T>, rows: seq<Row<T>>, i: int)
    requires 0 <= i < |rows| && LastWithItsId(rows, i)
    ensures rows[i].id in SaveAll(t, rows)
    ensures SaveAll(t, rows)[rows[i].id] == rows[i].fields
    decreases |rows|
  {
    var n := |rows| - 1;
    if i < n {
      var prefix := rows[..n];
      assert prefix[i] == rows[i];
      assert rows[n].id != rows[i].id;
      SaveAllStores(t, prefix, i);
    }
  }

  /** Each row of the table after saving is either a row the table already
      held or the columns of one of the saved rows. */
  lemma {:induction false} SaveAllOrigin<T>(t: map<int, T>, rows: seq<Row<T>>, key: int)
    requires key in SaveAll(t, rows)
    ensures || (key in t && SaveAll(t, rows)[key] == t[key])
            || exists i :: 0 <= i < |rows| && rows[i].id == key && SaveAll(t, rows)[key] == rows[i].fields
    decreases |rows|
  {
    if rows != [] {
      var n := |rows| - 1;
      var prefix := rows[..n];
      if rows[n].id != key {
        SaveAllOrigin(t, prefix, key);
        if exists i :: 0 <= i < |prefix| && prefix[i].id == key && SaveAll(t, prefix)[key] == prefix[i].fields {
          var i :| 0 <= i < |prefix| && prefix[i].id == key && SaveAll(t, prefix)[key] == prefix[i].fields;
          assert rows[i] == prefix[i];
        }
      }
    }
  }

  /** With distinct primary keys, each row's columns are in the table after
      saving them all. */
  lemma SaveAllStoresDistinct<T>(t: map<int, T>, rows: seq<Row<T>>, i: int)
    requires DistinctIds(rows) && 0 <= i < |rows|
    ensures rows[i].id in SaveAll(t, rows)
    ensures SaveAll(t, rows)[rows[i].id] == rows[i].fields
  {
    SaveAllStores(t, rows, i);
  }

  /** Two sequences listing the same rows have the same keys. */
  lemma SameRowsSameIds<T>(rows: seq<Row<T>>, rows': seq<Row<T>>)
    requires forall r :: r in rows ==> r in rows'
    ensures Ids(rows) <= Ids(rows')
  {
    forall key | key in Ids(rows) ensures key in Ids(rows') {
      var i :| 0 <= i < |rows| && rows[i].id == key;
      assert rows[i] in rows';
    }
  }

  /** The order in which a query yields the rows does not change the table
      they are saved into, as long as primary keys are distinct. */
  lemma SaveAllOrderIrrelevant<T>(t: map<int, T>, rows: seq<Row<T>>, rows': seq<Row<T>>)
    requires DistinctIds(rows) && DistinctIds(rows')
    requires forall r :: r in rows <==> r in rows'
    ensures SaveAll(t, rows) == SaveAll(t, rows')
  {
    var a, b := SaveAll(t, rows), SaveAll(t, rows');
    SameRowsSameIds(rows, rows');
    SameRowsSameIds(rows', rows);
    forall key | key in Ids(rows) ensures a[key] == b[key] {
      var i :| 0 <= i < |rows| && rows[i].id == key;
      assert rows[i] in rows';
      var j :| 0 <= j < |rows'| && rows'[j] == rows[i];
      SaveAllStoresDistinct(t, rows, i);
      SaveAllStoresDistinct(t, rows', j);
    }
    assert a.Keys == b.Keys;
  }

  /** Distinct primary keys: as many keys as rows. */
  lemma {:induction false} DistinctIdsCount<T>(rows: seq<Row<T>>)
    requires DistinctIds(rows)
    ensures |Ids(rows)| == |rows|
    decreases |rows|
  {
    if rows != [] {
      var n := |rows| - 1;
      var prefix := rows[..n];
      assert DistinctIds(prefix) by {
        forall i, j | 0 <= i < j < |prefix| ensures prefix[i].id != prefix[j].id {
          assert prefix[i] == rows[i] && prefix[j] == rows[j];
        }
      }
      DistinctIdsCount(prefix);
      IdsOfPrefix(rows);
      forall i | 0 <= i < |prefix| ensures prefix[i].id != rows[n].id {
        assert prefix[i] == rows[i];
      }
    }
  }

  /** Saving rows with distinct primary keys into an empty table yields one
      row per saved row, under the same keys. */
  lemma SaveAllIntoEmpty<T>(rows: seq<Row<T>>)
    requires DistinctIds(rows)
    ensures SaveAll(map[], rows).Keys == Ids(rows)
    ensures |SaveAll(map[], rows)| == |rows|
  {
    DistinctIdsCount(rows);
    assert |SaveAll(map[], rows)| == |SaveAll(map[], rows).Keys|;
  }
}
