/** The technical-details block of the project page: four candidate rows in a
    fixed order, of which only those with a truthy value are shown. */
module TechnicalDetailRows {
  import opened JsText
  import opened Catalogue

  /** A candidate row: its key, its heading and its value, absent when the
      project has none. */
  datatype Row = Row(key: string, title: string, value: Option<string>)

  /** The keys in the order the rows are built. */
  const RowKeys: seq<string> := ["architecture", "database", "deployment", "testing"]

  /** The four candidates, architecture first, testing last. */
  function Candidates(td: TechDetails): (r: seq<Row>)
    ensures |r| == |RowKeys|
    ensures forall i :: 0 <= i < |r| ==> r[i].key == RowKeys[i]
  {
    [
      Row("architecture", "Architecture", Some(td.architecture)),
      Row("database", "Database", td.database),
      Row("deployment", "Deployment", td.deployment),
      Row("testing", "Testing", td.testing)
    ]
  }

  /** JavaScript truthiness of an optional string: present and non-empty. */
  predicate Truthy(v: Option<string>) {
    v.Some? && v.value != []
  }

  /** `filter(section => section.value)`. */
  function KeepTruthy(rows: seq<Row>): (r: seq<Row>)
    ensures |r| <= |rows|
  {
    if rows == [] then []
    else
      var rest := KeepTruthy(rows[1..]);
      if Truthy(rows[0].value) then [rows[0]] + rest else rest
  }

  /** The filter keeps exactly the rows with a truthy value. */
  lemma {:induction false} KeptMembers(rows: seq<Row>, x: Row)
    ensures x in KeepTruthy(rows) <==> x in rows && Truthy(x.value)
  {
    if rows != [] {
      KeptMembers(rows[1..], x);
      assert rows == [rows[0]] + rows[1..];
    }
  }

  /** The rows the block shows for a project. */
  function ShownRows(td: TechDetails): seq<Row> {
    KeepTruthy(Candidates(td))
  }

  /** Position of a row key in the build order. */
  function Rank(key: string): int {
    if key == "architecture" then 0
    else if key == "database" then 1
    else if key == "deployment" then 2
    else if key == "testing" then 3
    else 4
  }

  /** A row kept exactly when its value is truthy, as a list of zero or one. */
  function IfTruthy(x: Row): seq<Row> {
    if Truthy(x.value) then [x] else []
  }

  /** Filtering a list with a head: the head if truthy, then the filtered rest. */
  lemma KeepTruthyCons(x: Row, rest: seq<Row>)
    ensures KeepTruthy([x] + rest) == IfTruthy(x) + KeepTruthy(rest)
  {
    assert ([x] + rest)[1..] == rest;
  }

  /** Filtering four rows, one at a time. */
  lemma KeepFour(a: Row, b: Row, c: Row, d: Row)
    ensures KeepTruthy([a, b, c, d]) == IfTruthy(a) + (IfTruthy(b) + (IfTruthy(c) + IfTruthy(d)))
  {
    assert KeepTruthy([d]) == IfTruthy(d) by {
      assert [d] == [d] + [];
      KeepTruthyCons(d, []);
    }
    assert KeepTruthy([c, d]) == IfTruthy(c) + IfTruthy(d) by {
      assert [c, d] == [c] + [d];
      KeepTruthyCons(c, [d]);
    }
    assert KeepTruthy([b, c, d]) == IfTruthy(b) + (IfTruthy(c) + IfTruthy(d)) by {
      assert [b, c, d] == [b] + [c, d];
      KeepTruthyCons(b, [c, d]);
    }
    assert [a, b, c, d] == [a] + [b, c, d];
    KeepTruthyCons(a, [b, c, d]);
  }

  /** The shown rows, candidate by candidate. */
  lemma ShownRowsUnfold(td: TechDetails)
    ensures var c := Candidates(td);
      ShownRows(td) == IfTruthy(c[0]) + (IfTruthy(c[1]) + (IfTruthy(c[2]) + IfTruthy(c[3])))
  {
    var c := Candidates(td);
    KeepFour(c[0], c[1], c[2], c[3]);
    assert c == [c[0], c[1], c[2], c[3]];
  }

  /** Keys strictly increase in rank along the list. */
  predicate Increasing(rows: seq<Row>) {
    forall i, j :: 0 <= i < j < |rows| ==> Rank(rows[i].key) < Rank(rows[j].key)
  }

  /** Every key of the list ranks above `k`. */
  predicate RankedAbove(k: int, rows: seq<Row>) {
    forall i :: 0 <= i < |rows| ==> k < Rank(rows[i].key)
  }

  /** Filtering keeps every remaining key above a bound. */
  lemma {:induction false} RankedAboveKept(k: int, rows: seq<Row>)
    requires RankedAbove(k, rows)
    ensures RankedAbove(k, KeepTruthy(rows))
  {
    if rows != [] {
      RankedAboveKept(k, rows[1..]);
      assert rows == [rows[0]] + rows[1..];
      KeepTruthyCons(rows[0], rows[1..]);
    }
  }

  /** Filtering a rank-increasing list keeps it rank-increasing. */
  lemma {:induction false} RanksIncrease(rows: seq<Row>)
    requires Increasing(rows)
    ensures Increasing(KeepTruthy(rows))
  {
    if rows != [] {
      var tail := rows[1..];
      RanksIncrease(tail);
      assert RankedAbove(Rank(rows[0].key), tail) by {
        forall m | 0 <= m < |tail|
          ensures Rank(rows[0].key) < Rank(tail[m].key)
        {
          assert tail[m] == rows[m + 1];
        }
      }
      RankedAboveKept(Rank(rows[0].key), tail);
      assert rows == [rows[0]] + tail;
      KeepTruthyCons(rows[0], tail);
      var rest := KeepTruthy(tail);
      var r := IfTruthy(rows[0]) + rest;
      forall i, j | 0 <= i < j < |r|
        ensures Rank(r[i].key) < Rank(r[j].key)
      {
        if |r| == |rest| {
          assert r[i] == rest[i] && r[j] == rest[j];
        } else if i == 0 {
          assert r[j] == rest[j - 1];
        } else {
          assert r[i] == rest[i - 1] && r[j] == rest[j - 1];
        }
      }
    }
  }

  /** Each kept row has a truthy value, every truthy candidate is kept, and
      kept rows keep the build order (keys strictly increase in rank), so
      there are at most four. */
  lemma ShownRowsMeaning(td: TechDetails)
    ensures var r := ShownRows(td);
      && |r| <= 4
      && (forall i :: 0 <= i < |r| ==> Truthy(r[i].value))
      && (forall k :: 0 <= k < 4 ==> (Candidates(td)[k] in r <==> Truthy(Candidates(td)[k].value)))
      && Increasing(r)
  {
    var c := Candidates(td);
    assert Increasing(c) by {
      assert forall k :: 0 <= k < 4 ==> Rank(c[k].key) == k;
    }
    RanksIncrease(c);
    var r := ShownRows(td);
    forall k | 0 <= k < 4
      ensures c[k] in r <==> Truthy(c[k].value)
    {
      KeptMembers(c, c[k]);
    }
    forall i | 0 <= i < |r|
      ensures Truthy(r[i].value)
    {
      KeptMembers(c, r[i]);
    }
  }

  /** A project with every value but the database gets exactly three rows:
      architecture, deployment, testing. */
  lemma MissingDatabaseGivesThreeRows(td: TechDetails)
    requires td.architecture != [] && td.database.None?
    requires Truthy(td.deployment) && Truthy(td.testing)
    ensures |ShownRows(td)| == 3
    ensures ShownRows(td)[0].key == "architecture"
    ensures ShownRows(td)[1].key == "deployment"
    ensures ShownRows(td)[2].key == "testing"
  {
    ShownRowsUnfold(td);
  }

  /** A project with all four values gets all four rows. */
  lemma FullDetailsGiveFourRows(td: TechDetails)
    requires td.architecture != [] && Truthy(td.database)
    requires Truthy(td.deployment) && Truthy(td.testing)
    ensures ShownRows(td) == Candidates(td)
  {
    ShownRowsUnfold(td);
  }

  /** In the catalogue, the entries with ids 1 and 5 show three rows and all
      others four. */
  lemma CatalogueRowCounts(i: nat)
    requires i < |ProjectsData|
    ensures |ShownRows(ProjectsData[i].techDetails)| == if ProjectsData[i].id in {1, 5} then 3 else 4
  {
    var td := ProjectsData[i].techDetails;
    DatabaseDetailShape();
    ShownRowsUnfold(td);
  }
}
