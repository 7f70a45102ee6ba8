/** The upsert statement `insert_row` hands to the MySQL cursor: the SQL text and its
    parameter list. Executing it is not part of this model. */
module Sql {

  datatype SqlValue = Text(s: string) | Number(x: real)

  /** A Python dict as its items in insertion order. */
  type Row = seq<(string, SqlValue)>

  datatype Statement = Statement(sql: string, params: seq<SqlValue>)

  /** `sep.join(parts)`. */
  function Join(sep: string, parts: seq<string>): string
  {
    if parts == [] then ""
    else if |parts| == 1 then parts[0]
    else Join(sep, parts[..|parts| - 1]) + sep + parts[|parts| - 1]
  }

  function Keys(row: Row): (r: seq<string>)
    ensures |r| == |row| && forall j :: 0 <= j < |row| ==> r[j] == row[j].0
  {
    seq(|row|, j requires 0 <= j < |row| => row[j].0)
  }

  function Values(row: Row): (r: seq<SqlValue>)
    ensures |r| == |row| && forall j :: 0 <= j < |row| ==> r[j] == row[j].1
  {
    seq(|row|, j requires 0 <= j < |row| => row[j].1)
  }

  /** `['%s'] * n`. */
  function Placeholders(n: nat): (r: seq<string>)
    ensures |r| == n && forall j :: 0 <= j < n ==> r[j] == "%s"
  {
    seq(n, j => "%s")
  }

  /** `['{0}=%s'.format(k) for k in keys]`: one update clause per column, in column order. */
  function Assignments(keys: seq<string>): (r: seq<string>)
    ensures |r| == |keys| && forall j :: 0 <= j < |keys| ==> r[j] == keys[j] + "=%s"
  {
    seq(|keys|, j requires 0 <= j < |keys| => keys[j] + "=%s")
  }

  /** Insert the row, or update every column of the existing row with the same key. The
      parameters are the row's values twice: once for VALUES and once for the update clauses. */
  function InsertRow(row: Row, table: string): (st: Statement)
    ensures |st.params| == 2 * |row|
    ensures forall j :: 0 <= j < |row| ==> st.params[j] == row[j].1 && st.params[|row| + j] == row[j].1
    // the column list, the placeholders and the update clauses all follow the row's key order
    ensures st.sql == UpsertSql(table, Join(", ", Keys(row)), Join(", ", Placeholders(|row|)),
                                Join(", ", Assignments(Keys(row))))
  {
    var placeholders := Join(", ", Placeholders(|row|));
    var columns := Join(", ", Keys(row));
    var keyPlaceholders := Join(", ", Assignments(Keys(row)));
    Statement(UpsertSql(table, columns, placeholders, keyPlaceholders), Values(row) + Values(row))
  }

  /** The statement template of `insert_row` filled with its four parts. */
  function UpsertSql(table: string, columns: string, placeholders: string, keyPlaceholders: string): string
  {
    "INSERT INTO " + table + " ( " + columns + " ) VALUES ( " + placeholders
    + " ) ON DUPLICATE KEY UPDATE " + keyPlaceholders
  }

  /** Joining three parts puts the separator between each pair. */
  lemma Join3(sep: string, a: string, b: string, c: string)
    ensures Join(sep, [a, b, c]) == a + sep + b + sep + c
  {
    assert [a, b][..1] == [a];
    assert Join(sep, [a, b]) == a + sep + b;
    assert [a, b, c][..2] == [a, b];
  }

  /** The number of occurrences of `c` in `s`. */
  function Count(c: char, s: string): nat
  {
    if s == [] then 0 else Count(c, s[..|s| - 1]) + (if s[|s| - 1] == c then 1 else 0)
  }

  /** The number of occurrences of `c` in all of `parts`. */
  function CountAll(c: char, parts: seq<string>): nat
  {
    if parts == [] then 0 else CountAll(c, parts[..|parts| - 1]) + Count(c, parts[|parts| - 1])
  }

  lemma {:induction false} CountAppend(c: char, s: string, t: string)
    ensures Count(c, s + t) == Count(c, s) + Count(c, t)
  {
    if t != [] {
      assert (s + t)[..|s + t| - 1] == s + t[..|t| - 1];
      CountAppend(c, s, t[..|t| - 1]);
    } else {
      assert s + t == s;
    }
  }

  lemma {:induction false} CountAbsent(c: char, s: string)
    requires c !in s
    ensures Count(c, s) == 0
  {
    if s != [] {
      CountAbsent(c, s[..|s| - 1]);
    }
  }

  /** A separator without `c` adds no occurrence of `c` to a join. */
  lemma {:induction false} CountJoin(c: char, sep: string, parts: seq<string>)
    requires c !in sep
    ensures Count(c, Join(sep, parts)) == CountAll(c, parts)
  {
    if |parts| == 1 {
      assert parts[..0] == [];
    } else if |parts| > 1 {
      var n := |parts|;
      CountJoin(c, sep, parts[..n - 1]);
      CountAppend(c, Join(sep, parts[..n - 1]), sep);
      CountAppend(c, Join(sep, parts[..n - 1]) + sep, parts[n - 1]);
      CountAbsent(c, sep);
    }
  }

  lemma {:induction false} CountPlaceholders(n: nat)
    ensures CountAll('%', Placeholders(n)) == n
  {
    if n > 0 {
      CountPlaceholders(n - 1);
      assert Placeholders(n)[..n - 1] == Placeholders(n - 1);
      assert Count('%', "%s") == 1 by {
        assert "%s"[..1] == "%" && "%"[..0] == "";
      }
    }
  }

  lemma {:induction false} CountAssignments(keys: seq<string>)
    requires forall j :: 0 <= j < |keys| ==> '%' !in keys[j]
    ensures CountAll('%', Assignments(keys)) == |keys|
  {
    if keys != [] {
      var n := |keys|;
      CountAssignments(keys[..n - 1]);
      assert Assignments(keys)[..n - 1] == Assignments(keys[..n - 1]);
      CountAppend('%', keys[n - 1], "=%s");
      CountAbsent('%', keys[n - 1]);
      assert Count('%', "=%s") == 1 by {
        assert "=%s"[..2] == "=%" && "=%"[..1] == "=" && "="[..0] == "";
      }
    }
  }

  lemma {:induction false} CountKeys(keys: seq<string>)
    requires forall j :: 0 <= j < |keys| ==> '%' !in keys[j]
    ensures CountAll('%', keys) == 0
  {
    if keys != [] {
      CountKeys(keys[..|keys| - 1]);
      CountAbsent('%', keys[|keys| - 1]);
    }
  }

  /** The template adds no `%` of its own: the statement's `%` are those of its parts. */
  lemma CountUpsertSql(table: string, columns: string, placeholders: string, keyPlaceholders: string)
    ensures Count('%', UpsertSql(table, columns, placeholders, keyPlaceholders))
         == Count('%', table) + Count('%', columns) + Count('%', placeholders) + Count('%', keyPlaceholders)
  {
    CountAbsent('%', "INSERT INTO ");
    CountAbsent('%', " ( ");
    CountAbsent('%', " ) VALUES ( ");
    CountAbsent('%', " ) ON DUPLICATE KEY UPDATE ");
    var s1 := "INSERT INTO " + table;
    CountAppend('%', "INSERT INTO ", table);
    var s2 := s1 + " ( ";
    CountAppend('%', s1, " ( ");
    var s3 := s2 + columns;
    CountAppend('%', s2, columns);
    var s4 := s3 + " ) VALUES ( ";
    CountAppend('%', s3, " ) VALUES ( ");
    var s5 := s4 + placeholders;
    CountAppend('%', s4, placeholders);
    var s6 := s5 + " ) ON DUPLICATE KEY UPDATE ";
    CountAppend('%', s5, " ) ON DUPLICATE KEY UPDATE ");
    CountAppend('%', s6, keyPlaceholders);
  }

  /** When neither the table name nor a column name contains `%`, the statement has exactly
      one `%s` placeholder per parameter: one per column in VALUES and one per update clause. */
  lemma PlaceholdersMatchParams(row: Row, table: string)
    requires '%' !in table
    requires forall j :: 0 <= j < |row| ==> '%' !in row[j].0
    ensures Count('%', InsertRow(row, table).sql) == |InsertRow(row, table).params|
  {
    var keys := Keys(row);
    CountJoin('%', ", ", Placeholders(|row|));
    CountPlaceholders(|row|);
    CountJoin('%', ", ", keys);
    CountKeys(keys);
    CountJoin('%', ", ", Assignments(keys));
    CountAssignments(keys);
    CountAbsent('%', table);
    CountUpsertSql(table, Join(", ", keys), Join(", ", Placeholders(|row|)), Join(", ", Assignments(keys)));
  }
}
