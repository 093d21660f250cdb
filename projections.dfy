/** The rule's `projections` list: how the form writes its rows and group
    keys into `{expr}` entries on save (WindowingAggregateNodeForm.jsx,
    handleSave) and how it reads them back into rows and bare keys on load
    (getScriptConditionAndFieldsForServer). */
module Projections {
  import opened Wrappers
  import opened JsString

  /** One row of the form's `outputFieldsArr`: an aggregate expression, the
      name of its output field, and whether the editor was pre-filled. */
  datatype Row = Row(conditions: string, outputFieldName: string, prefetchData: bool)

  /** One persisted `{expr}` entry of a rule's `projections`. */
  datatype Projection = Projection(expr: string)

  /** The two lists the parser returns: computed rows and bare entries. */
  datatype Parsed = Parsed(conditionsArr: seq<Row>, fieldKeyArr: seq<Projection>)

  /** The separator the parser looks for; the test is case-sensitive and
      matches anywhere in the expression, inside names too. */
  const Separator: string := "AS"

  predicate IsComputed(p: Projection) {
    Includes(p.expr, Separator)
  }

  /** A computed entry read back as a row: the trimmed text before the first
      `AS` and the trimmed text between the first and the second. */
  function ReadRow(expr: string): (row: Row)
    requires Includes(expr, Separator)
    ensures row.prefetchData
    ensures Trimmed(row.conditions) && Trimmed(row.outputFieldName)
  {
    var parts := Split(expr, Separator);
    Row(Trim(parts[0]), Trim(parts[1]), true)
  }

  /** The expressions of the entries containing `AS`, in input order. */
  function ComputedExprs(data: seq<Projection>): (r: seq<string>)
    ensures forall i :: 0 <= i < |r| ==> Includes(r[i], Separator)
  {
    if data == [] then []
    else (if IsComputed(data[0]) then [data[0].expr] else []) + ComputedExprs(data[1..])
  }

  /** The entries without `AS`, in input order; together with the computed
      ones they account for every entry. */
  function BareEntries(data: seq<Projection>): (r: seq<Projection>)
    ensures forall i :: 0 <= i < |r| ==> !IsComputed(r[i])
    ensures |ComputedExprs(data)| + |r| == |data|
  {
    if data == [] then []
    else (if IsComputed(data[0]) then [] else [data[0]]) + BareEntries(data[1..])
  }

  /** Each computed expression read as a row, in the same order. */
  function ReadRows(exprs: seq<string>): (rows: seq<Row>)
    requires forall i :: 0 <= i < |exprs| ==> Includes(exprs[i], Separator)
    ensures |rows| == |exprs|
    ensures forall i :: 0 <= i < |rows| ==> rows[i].prefetchData
  {
    seq(|exprs|, i requires 0 <= i < |exprs| => ReadRow(exprs[i]))
  }

  /** getScriptConditionAndFieldsForServer: every entry containing `AS`
      becomes a pre-filled row, every other entry is kept as it is. */
  function ParseProjections(data: seq<Projection>): (r: Parsed)
    ensures |r.conditionsArr| + |r.fieldKeyArr| == |data|
    ensures forall i :: 0 <= i < |r.conditionsArr| ==> r.conditionsArr[i].prefetchData
    ensures forall i :: 0 <= i < |r.fieldKeyArr| ==> !IsComputed(r.fieldKeyArr[i])
  {
    Parsed(ReadRows(ComputedExprs(data)), BareEntries(data))
  }

  lemma {:induction false} ComputedAppend(a: seq<Projection>, b: seq<Projection>)
    ensures ComputedExprs(a + b) == ComputedExprs(a) + ComputedExprs(b)
  {
    if a == [] {
      assert a + b == b;
    } else {
      assert (a + b)[0] == a[0];
      assert (a + b)[1..] == a[1..] + b;
      ComputedAppend(a[1..], b);
    }
  }

  lemma {:induction false} BareAppend(a: seq<Projection>, b: seq<Projection>)
    ensures BareEntries(a + b) == BareEntries(a) + BareEntries(b)
  {
    if a == [] {
      assert a + b == b;
    } else {
      assert (a + b)[0] == a[0];
      assert (a + b)[1..] == a[1..] + b;
      BareAppend(a[1..], b);
    }
  }

  /** Reading rows works expression by expression. */
  lemma ReadRowsAppend(a: seq<string>, b: seq<string>)
    requires forall i :: 0 <= i < |a| ==> Includes(a[i], Separator)
    requires forall i :: 0 <= i < |b| ==> Includes(b[i], Separator)
    ensures ReadRows(a + b) == ReadRows(a) + ReadRows(b)
  {
    var ab, ra, rb := a + b, ReadRows(a), ReadRows(b);
    var r := ReadRows(ab);
    forall i | 0 <= i < |ab| ensures r[i] == (ra + rb)[i] {
      if i < |a| {
        assert ab[i] == a[i];
      } else {
        assert ab[i] == b[i - |a|];
      }
    }
  }

  /** Parsing works entry by entry: the rows of a concatenation are the rows
      of the first part followed by those of the second, and so are the bare
      entries. Both outputs therefore keep the input order. */
  lemma ParseAppend(a: seq<Projection>, b: seq<Projection>)
    ensures ParseProjections(a + b) == Parsed(
              ParseProjections(a).conditionsArr + ParseProjections(b).conditionsArr,
              ParseProjections(a).fieldKeyArr + ParseProjections(b).fieldKeyArr)
  {
    ComputedAppend(a, b);
    BareAppend(a, b);
    ReadRowsAppend(ComputedExprs(a), ComputedExprs(b));
  }

  /** A single entry: a computed one yields exactly one row, a bare one is
      kept unchanged. */
  lemma ParseOne(p: Projection)
    ensures IsComputed(p) ==> ParseProjections([p]) == Parsed([ReadRow(p.expr)], [])
    ensures !IsComputed(p) ==> ParseProjections([p]) == Parsed([], [p])
  {
    assert [p][1..] == [];
  }

  /** The text handleSave stores for a row. */
  function SavedExpr(row: Row): string {
    row.conditions + " AS " + row.outputFieldName
  }

  /** One `"cond AS name"` entry per row, in row order. */
  function RowProjections(rows: seq<Row>): (r: seq<Projection>)
    ensures |r| == |rows|
  {
    if rows == [] then []
    else RowProjections(rows[..|rows| - 1]) + [Projection(SavedExpr(rows[|rows| - 1]))]
  }

  /** One bare `{expr: key}` entry per group key, in key order. */
  function KeyProjections(keys: seq<string>): (r: seq<Projection>)
    ensures |r| == |keys|
  {
    if keys == [] then [] else KeyProjections(keys[..|keys| - 1]) + [Projection(keys[|keys| - 1])]
  }

  /** The projections handleSave stores: the rows first, then the group keys. */
  function SavedProjections(rows: seq<Row>, groupByKeys: seq<string>): (r: seq<Projection>)
    ensures |r| == |rows| + |groupByKeys|
  {
    RowProjections(rows) + KeyProjections(groupByKeys)
  }

  /** The entry a row is saved as is found at the row's own index, and the
      entry of group key `j` comes after all rows. */
  lemma {:induction false} SavedProjectionsAt(rows: seq<Row>, groupByKeys: seq<string>)
    ensures forall i :: 0 <= i < |rows| ==> SavedProjections(rows, groupByKeys)[i] == Projection(SavedExpr(rows[i]))
    ensures forall j :: 0 <= j < |groupByKeys| ==>
              SavedProjections(rows, groupByKeys)[|rows| + j] == Projection(groupByKeys[j])
  {
    RowProjectionsAt(rows);
    KeyProjectionsAt(groupByKeys);
  }

  lemma {:induction false} RowProjectionsAt(rows: seq<Row>)
    ensures forall i :: 0 <= i < |rows| ==> RowProjections(rows)[i] == Projection(SavedExpr(rows[i]))
  {
    if rows != [] {
      var init := rows[..|rows| - 1];
      RowProjectionsAt(init);
      assert forall i :: 0 <= i < |init| ==> init[i] == rows[i];
    }
  }

  lemma {:induction false} KeyProjectionsAt(keys: seq<string>)
    ensures forall j :: 0 <= j < |keys| ==> KeyProjections(keys)[j] == Projection(keys[j])
  {
    if keys != [] {
      var init := keys[..|keys| - 1];
      KeyProjectionsAt(init);
      assert forall j :: 0 <= j < |init| ==> init[j] == keys[j];
    }
  }

  /** The loop of handleSave that builds the projections: one push per row,
      then the group-key entries appended. */
  method CollectProjections(outputFieldsArr: seq<Row>, groupByKeys: seq<string>) returns (merged: seq<Projection>)
    ensures merged == SavedProjections(outputFieldsArr, groupByKeys)
  {
    var tempArr: seq<Projection> := [];
    var i := 0;
    while i < |outputFieldsArr|
      invariant 0 <= i <= |outputFieldsArr|
      invariant tempArr == RowProjections(outputFieldsArr[..i])
    {
      assert outputFieldsArr[..i + 1][..i] == outputFieldsArr[..i];
      tempArr := tempArr + [Projection(SavedExpr(outputFieldsArr[i]))];
      i := i + 1;
    }
    assert outputFieldsArr[..i] == outputFieldsArr;
    var exprObj: seq<Projection> := [];
    var j := 0;
    while j < |groupByKeys|
      invariant 0 <= j <= |groupByKeys|
      invariant exprObj == KeyProjections(groupByKeys[..j])
    {
      assert groupByKeys[..j + 1][..j] == groupByKeys[..j];
      exprObj := exprObj + [Projection(groupByKeys[j])];
      j := j + 1;
    }
    assert groupByKeys[..j] == groupByKeys;
    merged := tempArr + exprObj;
  }

  /** A string the round trip can carry: already trimmed and free of `AS`. */
  predicate Clean(s: string) {
    Trimmed(s) && !Includes(s, Separator)
  }

  /** The rows as the parser returns them: pre-filled. */
  function Prefetched(rows: seq<Row>): (r: seq<Row>)
    ensures |r| == |rows|
    ensures forall i :: 0 <= i < |rows| ==> r[i] == rows[i].(prefetchData := true)
  {
    if rows == [] then []
    else
      var init := rows[..|rows| - 1];
      assert forall i :: 0 <= i < |init| ==> init[i] == rows[i];
      Prefetched(init) + [rows[|rows| - 1].(prefetchData := true)]
  }

  /** `indexOf` finds `i` when `sep` occurs there and nowhere before. */
  lemma IndexOfIs(s: string, sep: string, i: nat)
    requires OccursAt(s, sep, i)
    requires forall j :: 0 <= j < i ==> !OccursAt(s, sep, j)
    ensures IndexOf(s, sep) == Some(i)
  {
  }

  /** An occurrence inside `x + y` that lies wholly inside `x` or wholly
      inside `y` is an occurrence in that part. */
  lemma OccursInPart(x: string, y: string, sep: string, j: nat)
    ensures j + |sep| <= |x| ==> (OccursAt(x + y, sep, j) <==> OccursAt(x, sep, j))
    ensures j >= |x| ==> (OccursAt(x + y, sep, j) <==> OccursAt(y, sep, j - |x|))
  {
    if j + |sep| <= |x| {
      assert (x + y)[j..j + |sep|] == x[j..j + |sep|];
    }
    if j >= |x| && j + |sep| <= |x + y| {
      assert (x + y)[j..j + |sep|] == y[j - |x|..j - |x| + |sep|];
    }
  }

  /** The first `AS` of a saved row is the one handleSave put between the
      condition and the name, when the condition has none of its own. */
  lemma {:induction false} SavedSeparatorAt(c: string, n: string)
    requires !Includes(c, Separator)
    ensures IndexOf(SavedExpr(Row(c, n, false)), Separator) == Some(|c| + 1)
  {
    var s := SavedExpr(Row(c, n, false));
    var k := |c| + 1;
    assert s[k..k + 2] == "AS";
    forall j | 0 <= j < k ensures !OccursAt(s, Separator, j) {
      if j + 2 <= |c| {
        OccursInPart(c, s[|c|..], Separator, j);
        assert c + s[|c|..] == s;
      } else {
        assert s[|c|] == ' ';
      }
    }
    IndexOfIs(s, Separator, k);
  }

  /** A space followed by a string without `AS` has no `AS` either. */
  lemma SpacedHasNoSeparator(n: string)
    requires !Includes(n, Separator)
    ensures !Includes(" " + n, Separator)
  {
    forall j | 0 <= j <= |" " + n| ensures !OccursAt(" " + n, Separator, j) {
      if j == 0 {
        assert (" " + n)[0] == ' ';
      } else {
        OccursInPart(" ", n, Separator, j);
      }
    }
  }

  /** A saved row reads back as the same condition and name. */
  lemma RowRoundTrip(c: string, n: string)
    requires Clean(c) && Clean(n)
    ensures Includes(SavedExpr(Row(c, n, false)), Separator)
    ensures ReadRow(SavedExpr(Row(c, n, false))) == Row(c, n, true)
  {
    var s := SavedExpr(Row(c, n, false));
    var k := |c| + 1;
    SavedSeparatorAt(c, n);
    SpacedHasNoSeparator(n);
    assert s[..k] == c + " ";
    assert s[k + 2..] == " " + n;
    assert Split(s, Separator) == [c + " ", " " + n];
    TrimAroundTrimmed(c);
    TrimAroundTrimmed(n);
  }

  /** Saving rows and reading them back gives the same rows, pre-filled. */
  lemma {:induction false} RowsRoundTrip(rows: seq<Row>)
    requires forall i :: 0 <= i < |rows| ==> Clean(rows[i].conditions) && Clean(rows[i].outputFieldName)
    ensures ParseProjections(RowProjections(rows)) == Parsed(Prefetched(rows), [])
  {
    if rows != [] {
      var init, last := rows[..|rows| - 1], rows[|rows| - 1];
      RowsRoundTrip(init);
      var p := Projection(SavedExpr(last));
      RowRoundTrip(last.conditions, last.outputFieldName);
      assert SavedExpr(last) == SavedExpr(Row(last.conditions, last.outputFieldName, false));
      ParseOne(p);
      ParseAppend(RowProjections(init), [p]);
    }
  }

  /** Group keys without `AS` read back as the same bare entries. */
  lemma {:induction false} KeysRoundTrip(keys: seq<string>)
    requires forall j :: 0 <= j < |keys| ==> !Includes(keys[j], Separator)
    ensures ParseProjections(KeyProjections(keys)) == Parsed([], KeyProjections(keys))
  {
    if keys != [] {
      var init := keys[..|keys| - 1];
      KeysRoundTrip(init);
      var p := Projection(keys[|keys| - 1]);
      ParseOne(p);
      ParseAppend(KeyProjections(init), [p]);
    }
  }

  /** Round trip of the whole list: what handleSave stores, the loader splits
      back into the same rows (pre-filled) and the same group-key entries,
      provided conditions and names are trimmed and no string contains `AS`. */
  lemma ProjectionsRoundTrip(rows: seq<Row>, groupByKeys: seq<string>)
    requires forall i :: 0 <= i < |rows| ==> Clean(rows[i].conditions) && Clean(rows[i].outputFieldName)
    requires forall j :: 0 <= j < |groupByKeys| ==> !Includes(groupByKeys[j], Separator)
    ensures ParseProjections(SavedProjections(rows, groupByKeys))
            == Parsed(Prefetched(rows), KeyProjections(groupByKeys))
  {
    ParseAppend(RowProjections(rows), KeyProjections(groupByKeys));
    RowsRoundTrip(rows);
    KeysRoundTrip(groupByKeys);
  }

  /** The pieces `split('AS')` makes of `LAST(x) AS total`. */
  lemma SplitOfLast()
    ensures |Split("LAST(x) AS total", Separator)| >= 2
    ensures Split("LAST(x) AS total", Separator)[0] == "L"
    ensures Split("LAST(x) AS total", Separator)[1] == "T(x) "
  {
    var s := "LAST(x) AS total";
    assert OccursAt(s, Separator, 1) by { assert s[1..3] == "AS"; }
    assert !OccursAt(s, Separator, 0) by { assert s[0] == 'L'; }
    IndexOfIs(s, Separator, 1);
    var t := s[3..];
    assert t == "T(x) AS total";
    assert OccursAt(t, Separator, 5) by { assert t[5..7] == "AS"; }
    forall j | 0 <= j < 5 ensures !OccursAt(t, Separator, j) {
      assert t[j..j + 2][0] == t[j];
    }
    IndexOfIs(t, Separator, 5);
    assert s[..1] == "L";
    assert t[..5] == "T(x) ";
  }

  /** The separator test matches inside words: the aggregate `LAST`
      contains `AS`, so a saved `LAST(x) AS total` reads back as condition
      `L` and name `T(x)`. */
  lemma AsInsideConditionIsMisread()
    ensures ParseProjections([Projection("LAST(x) AS total")]).conditionsArr == [Row("L", "T(x)", true)]
  {
    ReadRowOfLast();
    ParseOne(Projection("LAST(x) AS total"));
  }

  lemma ReadRowOfLast()
    ensures Includes("LAST(x) AS total", Separator)
    ensures ReadRow("LAST(x) AS total") == Row("L", "T(x)", true)
  {
    SplitOfLast();
    TrimOfLastPieces();
  }

  lemma TrimOfLastPieces()
    ensures Trim("L") == "L" && Trim("T(x) ") == "T(x)"
  {
    TrimAroundTrimmed("L");
    TrimAroundTrimmed("T(x)");
    assert "T(x)" + " " == "T(x) ";
  }

  /** A group key named `BASE` contains `AS`, so it reads back as a row
      (condition `B`, name `E`) instead of a group key. */
  lemma AsInsideKeyIsMisread()
    ensures ParseProjections([Projection("BASE")]) == Parsed([Row("B", "E", true)], [])
  {
    var b := "BASE";
    assert Includes(b, Separator) && ReadRow(b) == Row("B", "E", true) by {
      SplitOfBase();
      TrimAroundTrimmed("B");
      TrimAroundTrimmed("E");
    }
    ParseOne(Projection(b));
  }

  lemma SplitOfBase()
    ensures Split("BASE", Separator) == ["B", "E"]
  {
    var b := "BASE";
    assert OccursAt(b, Separator, 1) by { assert b[1..3] == "AS"; }
    assert !OccursAt(b, Separator, 0) by { assert b[0] == 'B'; }
    IndexOfIs(b, Separator, 1);
    var e := b[3..];
    assert e == "E";
    assert !OccursAt(e, Separator, 0) && !OccursAt(e, Separator, 1);
    assert b[..1] == "B";
  }
}
