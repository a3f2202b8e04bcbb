/** A SQLite table with an `INTEGER PRIMARY KEY AUTOINCREMENT` id and one
    `TEXT UNIQUE` key column, filled by `INSERT OR REPLACE`. Rows are kept in
    id order, which is the order a plain `SELECT` fetches them in. Replacing
    deletes the row holding the key and inserts a new row with the next id,
    so a replaced row moves to the end and loses the columns the insert does
    not name. */
module Tables {
  import opened Base

  datatype Row<T> = Row(id: nat, key: string, data: T)

  /** One row to insert: its key and the other columns. */
  datatype Entry<T> = Entry(key: string, data: T)

  /** Ids increase along the table and stay below the next id to hand out;
      no two rows share a key. */
  predicate Keyed<T>(rows: seq<Row<T>>, next: nat)
  {
    && (forall i :: 0 <= i < |rows| ==> rows[i].id < next)
    && (forall i, j :: 0 <= i < j < |rows| ==> rows[i].id < rows[j].id && rows[i].key != rows[j].key)
  }

  /** The first row holding `key`. */
  function Find<T>(rows: seq<Row<T>>, key: string): Option<Row<T>>
  {
    if rows == [] then None
    else if rows[0].key == key then Some(rows[0])
    else Find(rows[1..], key)
  }

  /** A row `Find` returns is a row of the table holding the key. */
  lemma {:induction false} FindIn<T>(rows: seq<Row<T>>, key: string)
    ensures Find(rows, key).Some? ==> Find(rows, key).value in rows && Find(rows, key).value.key == key
  {
    if rows != [] && rows[0].key != key {
      FindIn(rows[1..], key);
    }
  }

  /** No row holds `key` exactly when `Find` finds none. */
  lemma {:induction false} FindNone<T>(rows: seq<Row<T>>, key: string)
    ensures Find(rows, key).None? <==> forall i :: 0 <= i < |rows| ==> rows[i].key != key
  {
    if rows != [] {
      FindNone(rows[1..], key);
      if rows[0].key != key {
        forall i | 0 <= i < |rows| && (forall i' :: 0 <= i' < |rows[1..]| ==> rows[1..][i'].key != key)
          ensures rows[i].key != key
        {
          if i > 0 {
            assert rows[i] == rows[1..][i - 1];
          }
        }
      }
    }
  }

  /** The table with the row holding `key` deleted. */
  function Without<T>(rows: seq<Row<T>>, key: string): (r: seq<Row<T>>)
    ensures |r| <= |rows|
  {
    if rows == [] then []
    else if rows[0].key == key then Without(rows[1..], key)
    else [rows[0]] + Without(rows[1..], key)
  }

  /** Deleting keeps only rows of the table, none of them holding `key`. */
  lemma {:induction false} WithoutSub<T>(rows: seq<Row<T>>, key: string)
    ensures forall x :: x in Without(rows, key) ==> x in rows && x.key != key
  {
    if rows != [] {
      WithoutSub(rows[1..], key);
    }
  }

  /** `INSERT OR REPLACE` of one row with the next id `next`. */
  function Upsert<T>(rows: seq<Row<T>>, next: nat, key: string, data: T): seq<Row<T>>
  {
    Without(rows, key) + [Row(next, key, data)]
  }

  /** The table after inserting the first `n` entries, one by one, with ids
      handed out from `next`. */
  function Loaded<T>(rows: seq<Row<T>>, next: nat, entries: seq<Entry<T>>, n: nat): seq<Row<T>>
    requires n <= |entries|
  {
    if n == 0 then rows
    else Upsert(Loaded(rows, next, entries, n - 1), next + n - 1, entries[n - 1].key, entries[n - 1].data)
  }

  /** The insert loop: upsert the entries one by one, in order, handing out
      one id per entry. */
  method InsertAll<T>(rows: seq<Row<T>>, next: nat, entries: seq<Entry<T>>) returns (table: seq<Row<T>>, after: nat)
    ensures table == Loaded(rows, next, entries, |entries|)
    ensures after == next + |entries|
  {
    table, after := rows, next;
    for i := 0 to |entries|
      invariant table == Loaded(rows, next, entries, i)
      invariant after == next + i
    {
      table := Upsert(table, after, entries[i].key, entries[i].data);
      after := after + 1;
    }
  }

  /** The index of the last of the first `n` entries carrying `key`. */
  function LastWrite<T>(entries: seq<Entry<T>>, n: nat, key: string): (r: Option<nat>)
    requires n <= |entries|
    ensures r.Some? ==> r.value < n
  {
    if n == 0 then None
    else if entries[n - 1].key == key then Some(n - 1)
    else LastWrite(entries, n - 1, key)
  }

  /** `LastWrite` finds the last entry with the key, and none exactly when
      no entry carries it. */
  lemma {:induction false} LastWriteMeaning<T>(entries: seq<Entry<T>>, n: nat, key: string)
    requires n <= |entries|
    ensures var r := LastWrite(entries, n, key);
      && (r.Some? ==> entries[r.value].key == key && forall j :: r.value < j < n ==> entries[j].key != key)
      && (r.None? <==> forall j :: 0 <= j < n ==> entries[j].key != key)
    decreases n
  {
    if n > 0 {
      LastWriteMeaning(entries, n - 1, key);
    }
  }

  lemma {:induction false} FindWithout<T>(rows: seq<Row<T>>, key: string, k: string)
    ensures Find(Without(rows, key), k) == if k == key then None else Find(rows, k)
  {
    if rows != [] {
      FindWithout(rows[1..], key, k);
    }
  }

  lemma {:induction false} FindAppend<T>(rows: seq<Row<T>>, row: Row<T>, k: string)
    ensures Find(rows + [row], k) ==
      if Find(rows, k).Some? then Find(rows, k) else if row.key == k then Some(row) else None
  {
    if rows != [] {
      assert (rows + [row])[1..] == rows[1..] + [row];
      FindAppend(rows[1..], row, k);
    }
  }

  /** After an upsert the key reads the new row, with the new id and only the
      inserted columns; every other key reads what it read before. */
  lemma UpsertFind<T>(rows: seq<Row<T>>, next: nat, key: string, data: T, k: string)
    ensures Find(Upsert(rows, next, key, data), k) == if k == key then Some(Row(next, key, data)) else Find(rows, k)
  {
    FindWithout(rows, key, k);
    FindAppend(Without(rows, key), Row(next, key, data), k);
  }

  /** Deleting a key keeps the remaining rows in order. */
  lemma {:induction false} WithoutKeyed<T>(rows: seq<Row<T>>, next: nat, key: string)
    requires Keyed(rows, next)
    ensures Keyed(Without(rows, key), next)
  {
    if rows != [] {
      var tail := rows[1..];
      assert Keyed(tail, next);
      WithoutKeyed(tail, next, key);
      if rows[0].key != key {
        WithoutSub(tail, key);
        HeadBeforeTail(rows, next);
        ConsKeyed(rows[0], Without(tail, key), next);
      }
    }
  }

  /** The first row precedes, and differs in key from, every later row. */
  lemma HeadBeforeTail<T>(rows: seq<Row<T>>, next: nat)
    requires Keyed(rows, next) && rows != []
    ensures forall x :: x in rows[1..] ==> rows[0].id < x.id && rows[0].key != x.key
  {
    forall x | x in rows[1..] ensures rows[0].id < x.id && rows[0].key != x.key {
      var b :| 0 <= b < |rows[1..]| && rows[1..][b] == x;
      assert rows[b + 1] == x;
    }
  }

  lemma ConsKeyed<T>(row: Row<T>, w: seq<Row<T>>, next: nat)
    requires Keyed(w, next) && row.id < next
    requires forall x :: x in w ==> row.id < x.id && row.key != x.key
    ensures Keyed([row] + w, next)
  {
    var r := [row] + w;
    forall i, j | 0 <= i < j < |r| ensures r[i].id < r[j].id && r[i].key != r[j].key {
      assert r[j] == w[j - 1];
      if i > 0 {
        assert r[i] == w[i - 1];
      } else {
        assert r[j] in w;
      }
    }
  }

  /** An upsert keeps ids increasing and keys unique. */
  lemma UpsertKeyed<T>(rows: seq<Row<T>>, next: nat, key: string, data: T)
    requires Keyed(rows, next)
    ensures Keyed(Upsert(rows, next, key, data), next + 1)
  {
    WithoutKeyed(rows, next, key);
    WithoutSub(rows, key);
    var w := Without(rows, key);
    assert forall i :: 0 <= i < |w| ==> w[i] in w;
  }

  /** Deleting a key removes one row if the key is present and none
      otherwise. */
  lemma {:induction false} WithoutCount<T>(rows: seq<Row<T>>, next: nat, key: string)
    requires Keyed(rows, next)
    ensures |Without(rows, key)| == if Find(rows, key).Some? then |rows| - 1 else |rows|
  {
    if rows != [] {
      assert Keyed(rows[1..], next);
      WithoutCount(rows[1..], next, key);
      if rows[0].key == key {
        FindNone(rows[1..], key);
        assert forall i :: 0 <= i < |rows[1..]| ==> rows[1..][i].key != key by {
          forall i | 0 <= i < |rows[1..]| ensures rows[1..][i].key != key {
            assert rows[1..][i] == rows[i + 1];
          }
        }
      }
    }
  }

  /** Reloading an existing key replaces its row rather than adding one. */
  lemma UpsertCount<T>(rows: seq<Row<T>>, next: nat, key: string, data: T)
    requires Keyed(rows, next)
    ensures |Upsert(rows, next, key, data)| == if Find(rows, key).Some? then |rows| else |rows| + 1
  {
    WithoutCount(rows, next, key);
  }

  /** After a load, a key reads the row of its last entry, with the id that
      entry was given; a key no entry carries reads what it read before. */
  lemma {:induction false} LoadedFind<T>(rows: seq<Row<T>>, next: nat, entries: seq<Entry<T>>, n: nat, k: string)
    requires n <= |entries|
    ensures LastWrite(entries, n, k).None? ==> Find(Loaded(rows, next, entries, n), k) == Find(rows, k)
    ensures LastWrite(entries, n, k).Some? ==>
      var j := LastWrite(entries, n, k).value;
      Find(Loaded(rows, next, entries, n), k) == Some(Row(next + j, k, entries[j].data))
    decreases n
  {
    if n > 0 {
      LoadedFind(rows, next, entries, n - 1, k);
      UpsertFind(Loaded(rows, next, entries, n - 1), next + n - 1, entries[n - 1].key, entries[n - 1].data, k);
    }
  }

  /** A load keeps ids increasing and keys unique, and hands out one id per
      entry. */
  lemma {:induction false} LoadedKeyed<T>(rows: seq<Row<T>>, next: nat, entries: seq<Entry<T>>, n: nat)
    requires n <= |entries| && Keyed(rows, next)
    ensures Keyed(Loaded(rows, next, entries, n), next + n)
    decreases n
  {
    if n > 0 {
      LoadedKeyed(rows, next, entries, n - 1);
      UpsertKeyed(Loaded(rows, next, entries, n - 1), next + n - 1, entries[n - 1].key, entries[n - 1].data);
    }
  }
}
