/** Turning row-shaped data points into named columns, as the request encoder does with
    `json_items = defaultdict(list)` and `json_items[name].append(value)`.

    The items of all rows are taken in row order and, within a row, in item order. The
    columns are the distinct names in first-seen order, and each column lists the values
    carried under its name in that same order. */
module Pivot {
  import opened Seqs

  function Concat<T>(rows: seq<seq<T>>): seq<T>
  {
    if rows == [] then [] else Concat(rows[..|rows| - 1]) + rows[|rows| - 1]
  }

  /** The values carried under name k, in order. */
  function Column<K(==), V>(items: seq<(K, V)>, k: K): seq<V>
  {
    if items == [] then []
    else
      var last := items[|items| - 1];
      Column(items[..|items| - 1], k) + (if last.0 == k then [last.1] else [])
  }

  /** The pivot: one (name, values) entry per column. */
  function Columns<K(==), V>(items: seq<(K, V)>): (cs: seq<(K, seq<V>)>)
    ensures |cs| == |DictKeys(items)|
  {
    var ns := DictKeys(items);
    seq(|ns|, i requires 0 <= i < |ns| => (ns[i], Column(items, ns[i])))
  }

  /** The dict being filled: its keys in insertion order and the list held under each. */
  datatype Acc<K, V> = Acc(keys: seq<K>, cols: map<K, seq<V>>)

  /** `json_items[k].append(v)` */
  function Push<K(==), V>(acc: Acc<K, V>, k: K, v: V): Acc<K, V>
  {
    if k in acc.cols then Acc(acc.keys, acc.cols[k := acc.cols[k] + [v]])
    else Acc(acc.keys + [k], acc.cols[k := [v]])
  }

  /** `for name, values in json_items.items()` */
  function Entries<K(==), V>(acc: Acc<K, V>): seq<(K, seq<V>)>
  {
    seq(|acc.keys|, i requires 0 <= i < |acc.keys| =>
      (acc.keys[i], if acc.keys[i] in acc.cols then acc.cols[acc.keys[i]] else []))
  }

  /** The dict holds the pivot of items. */
  ghost predicate Holds<K(!new), V>(acc: Acc<K, V>, items: seq<(K, V)>)
  {
    acc.keys == DictKeys(items) &&
    (forall k :: k in acc.cols <==> k in acc.keys) &&
    (forall k :: k in acc.cols ==> acc.cols[k] == Column(items, k))
  }

  lemma EmptyHolds<K(!new), V>(acc: Acc<K, V>, items: seq<(K, V)>)
    requires acc.keys == [] && acc.cols == map[] && items == []
    ensures Holds(acc, items)
  {
  }

  /** One append keeps the dict equal to the pivot of the items seen so far. */
  lemma PushStep<K(!new), V>(acc: Acc<K, V>, items: seq<(K, V)>, k: K, v: V)
    requires Holds(acc, items)
    ensures Holds(Push(acc, k, v), items + [(k, v)])
  {
    var items' := items + [(k, v)];
    assert items'[..|items'| - 1] == items;
    assert Keys(items') == Keys(items) + [k];
    assert Keys(items')[..|items'| - 1] == Keys(items);
    FirstSeenSpec(Keys(items));
    if k !in acc.cols {
      ColumnAbsent(items, k);
    }
    var acc' := Push(acc, k, v);
    forall k' | k' in acc'.cols ensures acc'.cols[k'] == Column(items', k') {
      assert Column(items', k') == Column(items, k') + (if k == k' then [v] else []);
    }
  }

  /** Once the dict holds the pivot, reading it out gives the columns. */
  lemma EntriesAreColumns<K(!new), V>(acc: Acc<K, V>, items: seq<(K, V)>)
    requires Holds(acc, items)
    ensures Entries(acc) == Columns(items)
  {
  }

  lemma {:induction false} ColumnAppend<K, V>(a: seq<(K, V)>, b: seq<(K, V)>, k: K)
    ensures Column(a + b, k) == Column(a, k) + Column(b, k)
    decreases |b|
  {
    if b == [] {
      assert a + b == a;
    } else {
      var init := b[..|b| - 1];
      assert (a + b)[..|a + b| - 1] == a + init;
      ColumnAppend(a, init, k);
    }
  }

  /** A name that no item carries has an empty column. */
  lemma {:induction false} ColumnAbsent<K, V>(items: seq<(K, V)>, k: K)
    requires k !in Keys(items)
    ensures Column(items, k) == []
  {
    if items != [] {
      var init := items[..|items| - 1];
      assert Keys(init) == Keys(items)[..|items| - 1];
      ColumnAbsent(init, k);
    }
  }

  // ----- the header-plus-rows table and its round trip -----

  /** A row of a table: header[c] paired with row[c] (`zip(data_header, row)`). */
  function Zip<K, V>(header: seq<K>, row: seq<V>): (r: seq<(K, V)>)
    ensures |r| == if |header| <= |row| then |header| else |row|
  {
    var n := if |header| <= |row| then |header| else |row|;
    seq(n, i requires 0 <= i < n => (header[i], row[i]))
  }

  /** The data points `populateDataset` builds from a header and rows, as item lists. */
  function Table<K, V>(header: seq<K>, rows: seq<seq<V>>): seq<seq<(K, V)>>
  {
    seq(|rows|, r requires 0 <= r < |rows| => Zip(header, rows[r]))
  }

  /** Every row has one value per header name. */
  predicate Rectangular<K, V>(header: seq<K>, rows: seq<seq<V>>)
  {
    forall r :: 0 <= r < |rows| ==> |rows[r]| == |header|
  }

  /** Within one row of a table with distinct names, name header[c] carries exactly row[c]. */
  lemma {:induction false} ColumnOfZip<K, V>(header: seq<K>, row: seq<V>, c: nat)
    requires Distinct(header) && |row| == |header| && c < |header|
    ensures Column(Zip(header, row), header[c]) == [row[c]]
    decreases |header|
  {
    var n := |header|;
    var z := Zip(header, row);
    var h', row' := header[..n - 1], row[..n - 1];
    assert z[..n - 1] == Zip(h', row');
    if c == n - 1 {
      assert header[c] !in Keys(Zip(h', row'));
      ColumnAbsent(Zip(h', row'), header[c]);
    } else {
      assert header[c] == h'[c] && row[c] == row'[c];
      ColumnOfZip(h', row', c);
    }
  }

  /** Column c of every row, in row order. */
  function ColumnOf<V>(rows: seq<seq<V>>, c: nat): (col: seq<V>)
    requires forall r :: 0 <= r < |rows| ==> c < |rows[r]|
    ensures |col| == |rows|
  {
    seq(|rows|, r requires 0 <= r < |rows| => rows[r][c])
  }

  lemma TableSnoc<K, V>(header: seq<K>, rows: seq<seq<V>>)
    requires |rows| >= 1
    ensures Concat(Table(header, rows)) ==
            Concat(Table(header, rows[..|rows| - 1])) + Zip(header, rows[|rows| - 1])
  {
    var t := Table(header, rows);
    assert t[..|rows| - 1] == Table(header, rows[..|rows| - 1]);
  }

  /** Pivoting a table with distinct names and at least one row gives back the header as the
      column names. */
  lemma {:induction false} PivotTableNames<K, V>(header: seq<K>, rows: seq<seq<V>>)
    requires Distinct(header) && Rectangular(header, rows) && |rows| >= 1
    ensures DictKeys(Concat(Table(header, rows))) == header
    decreases |rows|
  {
    var n := |rows|;
    var last := Zip(header, rows[n - 1]);
    assert Keys(last) == header;
    TableSnoc(header, rows);
    var a := Concat(Table(header, rows[..n - 1]));
    assert Keys(a + last) == Keys(a) + header;
    if n == 1 {
      assert a == [];
      assert Keys(a + last) == header;
      FirstSeenOfDistinct(header);
    } else {
      PivotTableNames(header, rows[..n - 1]);
      FirstSeenSpec(Keys(a));
      FirstSeenAppendSeen(Keys(a), header);
    }
  }

  /** In a pivoted table with distinct names, the column of name header[c] is column c of every
      row, in row order. */
  lemma {:induction false} PivotTableColumn<K, V>(header: seq<K>, rows: seq<seq<V>>, c: nat)
    requires Distinct(header) && Rectangular(header, rows) && c < |header|
    ensures Column(Concat(Table(header, rows)), header[c]) == ColumnOf(rows, c)
    decreases |rows|
  {
    var n := |rows|;
    if n >= 1 {
      var init := rows[..n - 1];
      TableSnoc(header, rows);
      var a := Concat(Table(header, init));
      var last := Zip(header, rows[n - 1]);
      PivotTableColumn(header, init, c);
      ColumnAppend(a, last, header[c]);
      ColumnOfZip(header, rows[n - 1], c);
      assert ColumnOf(rows, c) == ColumnOf(init, c) + [rows[n - 1][c]];
    }
  }

  /** The inverse the header-plus-rows layout gives: the column names, and row r made of value r
      of every column (columns of unequal length are cut to the first column's length). */
  function Unpivot<K, V>(cols: seq<(K, seq<V>)>): (r: (seq<K>, seq<seq<V>>))
  {
    var header := seq(|cols|, c requires 0 <= c < |cols| => cols[c].0);
    var n := if cols == [] then 0 else |cols[0].1|;
    var rows := seq(n, r requires 0 <= r < n =>
                  seq(|cols|, c requires 0 <= c < |cols| => if r < |cols[c].1| then cols[c].1[r] else cols[0].1[r]));
    (header, rows)
  }

  /** Round trip: pivoting a non-empty table with distinct names and undoing the pivot gives back
      the header and every row, in their original order. */
  lemma RoundTrip<K, V>(header: seq<K>, rows: seq<seq<V>>)
    requires Distinct(header) && Rectangular(header, rows) && |rows| >= 1 && |header| >= 1
    ensures Unpivot(Columns(Concat(Table(header, rows)))) == (header, rows)
  {
    var items := Concat(Table(header, rows));
    PivotTableNames(header, rows);
    var cs := Columns(items);
    assert |cs| == |header|;
    forall c | 0 <= c < |header| ensures cs[c] == (header[c], ColumnOf(rows, c)) {
      PivotTableColumn(header, rows, c);
    }
    var u := Unpivot(cs);
    var h, rs := u.0, u.1;
    assert h == header;
    assert |rs| == |rows|;
    forall r | 0 <= r < |rows| ensures rs[r] == rows[r] {
      assert |rs[r]| == |rows[r]|;
      forall c | 0 <= c < |header| ensures rs[r][c] == rows[r][c] {
        assert cs[c].1 == ColumnOf(rows, c);
      }
    }
    assert rs == rows;
  }
}
