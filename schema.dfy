/** Schema fields as the form handles them: the key catalog merged from the
    input streams, the timestamp options drawn from it, the return-type
    lookup in the aggregate-function catalog (getReturnType) and the
    recursive output-schema builder (generateOutputFields). */
module Schema {
  import opened Wrappers

  /** An entry of a field array. The form mixes schema fields, key entries
      and its own `{name, type}` output entries in these arrays, so a field
      carries every key any of them reads; `""` stands for a missing string
      key. `Hole` is an `undefined` slot of a sparse array. */
  datatype Field =
    | Field(name: string, outputFieldName: string, ftype: string, optional: bool,
            functionName: string, args: seq<string>, fields: Children)
    | Hole

  /** The `fields` key of an entry: missing, or a list of nested fields. */
  datatype Children = NoChildren | Children(items: seq<Field>)

  /** A `{name, type}` output entry, as setParentContextOutputStream writes it. */
  function NamedType(name: string, ftype: string): Field {
    Field(name, "", ftype, false, "", [], NoChildren)
  }

  /** A field of an output stream, as generateOutputFields produces it; a type
      of `None` is the `undefined` getReturnType may return. */
  datatype SchemaField = SchemaField(name: string, ftype: Option<string>, optional: bool,
                                     fields: Option<seq<SchemaField>>)

  /** An aggregate function of the catalog (`functionListArr`). */
  datatype Udf = Udf(name: string, argTypes: Option<seq<string>>, returnType: string)

  const Nested: string := "NESTED"
  const Long: string := "LONG"
  const DefaultType: string := "DOUBLE"

  // ---------------------------------------------------------------- lookup

  /** `catalog.find(o => o.name === name)`, as the index of the match. */
  function FindUdf(catalog: seq<Udf>, name: string): (r: Option<nat>)
    ensures r.Some? ==> r.value < |catalog| && catalog[r.value].name == name
    ensures r.Some? ==> forall j :: 0 <= j < r.value ==> catalog[j].name != name
    ensures r.None? <==> forall j :: 0 <= j < |catalog| ==> catalog[j].name != name
  {
    if catalog == [] then None
    else if catalog[0].name == name then Some(0)
    else match FindUdf(catalog[1..], name)
      case None => None
      case Some(i) => Some(i + 1)
  }

  /** `fieldObj` is truthy: present and not an `undefined` slot. */
  predicate Present(fieldObj: Option<Field>) {
    fieldObj.Some? && fieldObj.value.Field?
  }

  /** The function is in the catalog. */
  predicate Known(catalog: seq<Udf>, name: string) {
    exists j :: 0 <= j < |catalog| && catalog[j].name == name
  }

  /** getReturnType: the type of an aggregate over `fieldObj`. */
  function GetReturnType(catalog: seq<Udf>, functionName: string, fieldObj: Option<Field>): (r: Option<string>)
    ensures !Known(catalog, functionName) && Present(fieldObj) ==> r == Some(fieldObj.value.ftype)
    ensures !Known(catalog, functionName) && !Present(fieldObj) ==> r == Some(DefaultType)
    ensures Known(catalog, functionName) ==>
              (r.None? <==> catalog[FindUdf(catalog, functionName).value].argTypes.None? || !Present(fieldObj))
    ensures Known(catalog, functionName) && r.Some? ==>
              var u := catalog[FindUdf(catalog, functionName).value];
              r.value == if u.returnType != "" then u.returnType else fieldObj.value.ftype
  {
    match FindUdf(catalog, functionName)
    case Some(i) =>
      if catalog[i].argTypes.Some? && Present(fieldObj)
      then Some(if catalog[i].returnType != "" then catalog[i].returnType else fieldObj.value.ftype)
      else None
    case None =>
      if Present(fieldObj) then Some(fieldObj.value.ftype) else Some(DefaultType)
  }

  /** The type getReturnType gives depends only on the first catalog entry
      of that name: entries listed after it never matter. */
  lemma {:induction false} ReturnTypeFirstEntryWins(catalog: seq<Udf>, extra: seq<Udf>, functionName: string,
                                                    fieldObj: Option<Field>)
    requires Known(catalog, functionName)
    ensures GetReturnType(catalog + extra, functionName, fieldObj) == GetReturnType(catalog, functionName, fieldObj)
  {
    var i := FindUdf(catalog, functionName).value;
    var all := catalog + extra;
    assert all[i] == catalog[i];
    assert forall j :: 0 <= j < i ==> all[j] == catalog[j];
    assert FindUdf(all, functionName) == Some(i);
  }

  // -------------------------------------------------------- output schema

  /** The environment generateOutputFields reads: the function catalog, the
      key catalog, and the helper `ProcessorUtils.getKeyList` that resolves a
      field's argument names to a key (not part of this model). */
  datatype Catalogs = Catalogs(functions: seq<Udf>, keysList: seq<Field>,
                               keyList: (seq<string>, seq<Field>) -> Option<Field>)

  /** `field.name || field.outputFieldName`. */
  function OutName(f: Field): string
    requires f.Field?
  {
    if f.name != "" then f.name else f.outputFieldName
  }

  /** The field's nested fields are descended into. */
  predicate Descends(f: Field) {
    f.Field? && f.ftype == Nested && f.fields.Children?
  }

  /** Every entry generateOutputFields reaches is a real field: the list and,
      recursively, the nested fields of every NESTED entry. */
  predicate AllReached(fields: seq<Field>)
    decreases fields
  {
    forall i :: 0 <= i < |fields| ==>
      fields[i].Field? && (Descends(fields[i]) ==> AllReached(fields[i].fields.items))
  }

  /** One entry of generateOutputFields. */
  function GenerateField(f: Field, cat: Catalogs): (r: Result<SchemaField>)
    ensures r.Ok? <==> f.Field? && (Descends(f) ==> AllReached(f.fields.items))
    ensures r.Ok? ==> r.value.name == OutName(f) && r.value.optional == f.optional
    ensures r.Ok? ==> r.value.ftype == if f.ftype != "" then Some(f.ftype)
                                       else GetReturnType(cat.functions, f.functionName, cat.keyList(f.args, cat.keysList))
    ensures r.Ok? ==> (r.value.fields.Some? <==> Descends(f))
    ensures r.Ok? && Descends(f) ==> |r.value.fields.value| == |f.fields.items|
    ensures r.Ok? && Descends(f) ==> GenerateOutputFields(f.fields.items, cat) == Ok(r.value.fields.value)
    decreases f, 0
  {
    match f
    case Hole => TypeError("Cannot read property 'name' of undefined")
    case Field(_, _, _, _, _, _, _) =>
      var ftype := if f.ftype != "" then Some(f.ftype)
                   else GetReturnType(cat.functions, f.functionName, cat.keyList(f.args, cat.keysList));
      if Descends(f) then
        match GenerateOutputFields(f.fields.items, cat)
        case Ok(sub) => Ok(SchemaField(OutName(f), ftype, f.optional, Some(sub)))
        case TypeError(e) => TypeError(e)
      else Ok(SchemaField(OutName(f), ftype, f.optional, None))
  }

  /** generateOutputFields: each entry becomes `{name, type, optional}`, and a
      NESTED entry with nested fields gets its own nested fields built the
      same way. Reading the name of an `undefined` slot throws. */
  function GenerateOutputFields(fields: seq<Field>, cat: Catalogs): (r: Result<seq<SchemaField>>)
    ensures r.Ok? <==> AllReached(fields)
    ensures r.Ok? ==> |r.value| == |fields|
    ensures r.Ok? ==> forall i :: 0 <= i < |fields| ==> GenerateField(fields[i], cat) == Ok(r.value[i])
    decreases fields, 1
  {
    if fields == [] then Ok([])
    else
      match GenerateField(fields[0], cat)
      case TypeError(e) => TypeError(e)
      case Ok(head) =>
        match GenerateOutputFields(fields[1..], cat)
        case TypeError(e) => TypeError(e)
        case Ok(tail) =>
          assert forall i :: 1 <= i < |fields| ==> fields[i] == fields[1..][i - 1];
          Ok([head] + tail)
  }

  /** The output schema of a concatenation is the concatenation of the two
      schemas, so key fields keep their place before the output fields. */
  lemma GenerateAppend(a: seq<Field>, b: seq<Field>, cat: Catalogs)
    ensures GenerateOutputFields(a + b, cat).Ok? <==>
              GenerateOutputFields(a, cat).Ok? && GenerateOutputFields(b, cat).Ok?
    ensures GenerateOutputFields(a + b, cat).Ok? ==>
              GenerateOutputFields(a + b, cat).value
              == GenerateOutputFields(a, cat).value + GenerateOutputFields(b, cat).value
  {
    var ab := a + b;
    assert forall i :: 0 <= i < |a| ==> ab[i] == a[i];
    assert forall i :: 0 <= i < |b| ==> ab[|a| + i] == b[i];
    if GenerateOutputFields(ab, cat).Ok? {
      assert AllReached(a) && AllReached(b) by {
        assert forall i :: 0 <= i < |b| ==> ab[|a| + i] == b[i];
      }
    }
    if AllReached(a) && AllReached(b) {
      assert AllReached(ab) by {
        forall i | 0 <= i < |ab|
          ensures ab[i].Field? && (Descends(ab[i]) ==> AllReached(ab[i].fields.items))
        {
          if i >= |a| { assert ab[i] == b[i - |a|]; }
        }
      }
    }
  }

  // ------------------------------------------------------- key catalog

  /** The key `_.unionBy(..., 'name')` compares: the field's name, `None`
      for an `undefined` slot. */
  function Key(f: Field): Option<string> {
    if f.Field? then Some(f.name) else None
  }

  /** The names present in `s`. */
  function Keys(s: seq<Field>): (ks: set<Option<string>>)
    ensures forall j :: 0 <= j < |s| ==> Key(s[j]) in ks
    ensures forall k :: k in ks ==> exists j :: 0 <= j < |s| && Key(s[j]) == k
  {
    set j | 0 <= j < |s| :: Key(s[j])
  }

  /** `_.unionBy(fields, 'name')`: the first field of each name, in the order
      of the first occurrences. */
  function UnionByName(fields: seq<Field>): (r: seq<Field>)
    ensures |r| <= |fields|
  {
    if fields == [] then []
    else
      var u := UnionByName(fields[..|fields| - 1]);
      var last := fields[|fields| - 1];
      if Key(last) in Keys(u) then u else u + [last]
  }

  /** The index of the first field named `k` in `s`, or `|s|` when there is none. */
  function FirstIndex(s: seq<Field>, k: Option<string>): (n: nat)
    ensures n <= |s|
    ensures n < |s| ==> Key(s[n]) == k
    ensures forall j :: 0 <= j < n ==> Key(s[j]) != k
  {
    if s == [] then 0
    else if Key(s[0]) == k then 0
    else
      assert forall j :: 1 <= j < |s| ==> s[j] == s[1..][j - 1];
      1 + FirstIndex(s[1..], k)
  }

  /** Appending a field does not move the first occurrence of a name that
      is already there. */
  lemma FirstIndexSnoc(s: seq<Field>, x: Field, k: Option<string>)
    requires k in Keys(s)
    ensures FirstIndex(s + [x], k) == FirstIndex(s, k)
  {
    var t := s + [x];
    var n := FirstIndex(s, k);
    var j :| 0 <= j < |s| && Key(s[j]) == k;
    assert n < |s|;
    assert forall i :: 0 <= i < |s| ==> t[i] == s[i];
    var m := FirstIndex(t, k);
    assert m <= n && n <= m;
  }

  /** The union keeps the fields in the order of their names' first
      occurrences, and the field kept for each name is that first occurrence. */
  lemma {:induction false} UnionByNameOrder(fields: seq<Field>)
    ensures forall i :: 0 <= i < |UnionByName(fields)| ==>
              FirstIndex(fields, Key(UnionByName(fields)[i])) < |fields|
              && fields[FirstIndex(fields, Key(UnionByName(fields)[i]))] == UnionByName(fields)[i]
    ensures forall i, j :: 0 <= i < j < |UnionByName(fields)| ==>
              FirstIndex(fields, Key(UnionByName(fields)[i])) < FirstIndex(fields, Key(UnionByName(fields)[j]))
  {
    if fields != [] {
      var init, last := fields[..|fields| - 1], fields[|fields| - 1];
      var u := UnionByName(init);
      assert fields == init + [last];
      UnionByNameOrder(init);
      UnionPrefixOrder(init, last, u, fields);
      if Key(last) in Keys(u) {
        assert UnionByName(fields) == u;
      } else {
        assert UnionByName(fields) == u + [last];
        UnionNewLast(init, last);
        UnionAddedOrder(init, last, u, u + [last], fields);
      }
    }
  }

  /** The fields the union of `init` kept keep their first occurrence when a
      field is appended. */
  lemma UnionPrefixOrder(init: seq<Field>, last: Field, u: seq<Field>, t: seq<Field>)
    requires t == init + [last]
    requires forall i :: 0 <= i < |u| ==>
               FirstIndex(init, Key(u[i])) < |init| && init[FirstIndex(init, Key(u[i]))] == u[i]
    ensures forall i :: 0 <= i < |u| ==>
              FirstIndex(t, Key(u[i])) == FirstIndex(init, Key(u[i]))
              && t[FirstIndex(init, Key(u[i]))] == u[i]
  {
    forall i | 0 <= i < |u|
      ensures FirstIndex(t, Key(u[i])) == FirstIndex(init, Key(u[i]))
              && t[FirstIndex(init, Key(u[i]))] == u[i]
    {
      var n := FirstIndex(init, Key(u[i]));
      assert Key(init[n]) in Keys(init);
      FirstIndexSnoc(init, last, Key(u[i]));
    }
  }

  /** A field whose name the union of `init` lacks is its own first
      occurrence, at the end of `init + [last]`. */
  lemma UnionNewLast(init: seq<Field>, last: Field)
    requires Key(last) !in Keys(UnionByName(init))
    ensures FirstIndex(init + [last], Key(last)) == |init|
  {
    UnionByNameKeys(init);
    NewKeyFirstAtEnd(init, last);
  }

  /** A name `init` lacks first occurs at the end of `init + [last]`. */
  lemma NewKeyFirstAtEnd(init: seq<Field>, last: Field)
    requires Key(last) !in Keys(init)
    ensures FirstIndex(init + [last], Key(last)) == |init|
  {
    var t := init + [last];
    assert t[|init|] == last;
    assert forall j :: 0 <= j < |init| ==> t[j] == init[j];
  }

  /** Appending a field with a new name after the kept fields keeps them in
      order of first occurrence. */
  lemma UnionAddedOrder(init: seq<Field>, last: Field, u: seq<Field>, r: seq<Field>, t: seq<Field>)
    requires t == init + [last] && r == u + [last]
    requires forall i :: 0 <= i < |u| ==>
               FirstIndex(t, Key(u[i])) < |init| && t[FirstIndex(t, Key(u[i]))] == u[i]
    requires forall i, j :: 0 <= i < j < |u| ==> FirstIndex(t, Key(u[i])) < FirstIndex(t, Key(u[j]))
    requires FirstIndex(t, Key(last)) == |init|
    ensures forall i :: 0 <= i < |r| ==> FirstIndex(t, Key(r[i])) < |t| && t[FirstIndex(t, Key(r[i]))] == r[i]
    ensures forall i, j :: 0 <= i < j < |r| ==> FirstIndex(t, Key(r[i])) < FirstIndex(t, Key(r[j]))
  {
    forall i | 0 <= i < |r|
      ensures FirstIndex(t, Key(r[i])) < |t| && t[FirstIndex(t, Key(r[i]))] == r[i]
    {
      if i < |u| { assert r[i] == u[i]; } else { assert r[i] == last; }
    }
    forall i, j | 0 <= i < j < |r|
      ensures FirstIndex(t, Key(r[i])) < FirstIndex(t, Key(r[j]))
    {
      assert r[i] == u[i];
      if j < |u| { assert r[j] == u[j]; } else { assert r[j] == last; }
    }
  }

  lemma KeysSnoc(s: seq<Field>, x: Field)
    ensures Keys(s + [x]) == Keys(s) + {Key(x)}
  {
    var t := s + [x];
    assert forall j :: 0 <= j < |s| ==> t[j] == s[j];
    assert t[|s|] == x;
  }

  /** The union has the same names as its input. */
  lemma {:induction false} UnionByNameKeys(fields: seq<Field>)
    ensures Keys(UnionByName(fields)) == Keys(fields)
  {
    if fields != [] {
      var init := fields[..|fields| - 1];
      var last := fields[|fields| - 1];
      var u := UnionByName(init);
      UnionByNameKeys(init);
      assert fields == init + [last];
      KeysSnoc(init, last);
      KeysSnoc(u, last);
    }
  }

  /** Each name occurs once in the union, and the union keeps only fields of
      its input. */
  lemma {:induction false} UnionByNameUnique(fields: seq<Field>)
    ensures forall i, j :: 0 <= i < j < |UnionByName(fields)| ==>
              Key(UnionByName(fields)[i]) != Key(UnionByName(fields)[j])
    ensures forall j :: 0 <= j < |UnionByName(fields)| ==> UnionByName(fields)[j] in fields
  {
    if fields != [] {
      var init := fields[..|fields| - 1];
      var last := fields[|fields| - 1];
      var u := UnionByName(init);
      UnionByNameUnique(init);
      assert forall x :: x in init ==> x in fields;
      if Key(last) !in Keys(u) {
        var r := u + [last];
        assert forall j :: 0 <= j < |u| ==> r[j] == u[j];
      }
    }
  }

  /** The field kept for a name is its first occurrence. */
  lemma {:induction false} UnionKeepsFirst(fields: seq<Field>, i: nat)
    requires i < |fields|
    requires forall k :: 0 <= k < i ==> Key(fields[k]) != Key(fields[i])
    ensures fields[i] in UnionByName(fields)
    decreases |fields|
  {
    var init := fields[..|fields| - 1];
    var u := UnionByName(init);
    if i < |fields| - 1 {
      assert init[i] == fields[i];
      assert forall k :: 0 <= k < i ==> init[k] == fields[k];
      UnionKeepsFirst(init, i);
    } else {
      UnionByNameKeys(init);
      assert Key(fields[i]) !in Keys(init) by {
        forall k | 0 <= k < |init| ensures Key(init[k]) != Key(fields[i]) {
          assert init[k] == fields[k];
        }
      }
    }
  }

  // ------------------------------------------------- timestamp options

  /** An entry of the timestamp selector: a LONG field, or the final
      `{name: "processingTime", value: "processingTime"}` option. */
  datatype TsOption = FieldOption(field: Field) | ProcessingTimeOption

  predicate IsLong(f: Field) {
    f.Field? && f.ftype == Long
  }

  /** `fieldsArr.filter(f => f.type === 'LONG')`. */
  function LongFields(fields: seq<Field>): (r: seq<Field>)
    ensures |r| <= |fields|
    ensures forall j :: 0 <= j < |r| ==> IsLong(r[j]) && r[j] in fields
    ensures forall i :: 0 <= i < |fields| && IsLong(fields[i]) ==> fields[i] in r
  {
    if fields == [] then []
    else
      var init := fields[..|fields| - 1];
      var last := fields[|fields| - 1];
      assert forall i :: 0 <= i < |init| ==> init[i] == fields[i];
      assert fields == init + [last];
      LongFields(init) + (if IsLong(last) then [last] else [])
  }

  /** The filter works field by field: it keeps the order and the
      multiplicity of the LONG fields. */
  lemma {:induction false} LongFieldsAppend(a: seq<Field>, b: seq<Field>)
    ensures LongFields(a + b) == LongFields(a) + LongFields(b)
    decreases |b|
  {
    if b == [] {
      assert a + b == a;
    } else {
      var init, last := b[..|b| - 1], b[|b| - 1];
      var tail := if IsLong(last) then [last] else [];
      LongFieldsAppend(a, init);
      var ab := a + b;
      assert ab[..|ab| - 1] == a + init && ab[|ab| - 1] == last;
      assert LongFields(ab) == LongFields(a + init) + tail;
      assert LongFields(b) == LongFields(init) + tail;
    }
  }

  /** A single field is kept exactly when it is LONG. */
  lemma LongFieldsOne(x: Field)
    ensures LongFields([x]) == if IsLong(x) then [x] else []
  {
    assert [x][..0] == [];
  }

  /** The timestamp options getDataFromParentFormContext offers: the LONG
      fields of the key catalog, in catalog order, followed by the
      processing-time option, which is therefore always available. */
  function TsFieldOptions(fieldsArr: seq<Field>): (r: seq<TsOption>)
    ensures |r| == |LongFields(fieldsArr)| + 1
    ensures r[|r| - 1] == ProcessingTimeOption
    ensures forall j :: 0 <= j < |r| - 1 ==> r[j] == FieldOption(LongFields(fieldsArr)[j])
  {
    var longs := LongFields(fieldsArr);
    seq(|longs|, j requires 0 <= j < |longs| => FieldOption(longs[j])) + [ProcessingTimeOption]
  }

  /** A field can be chosen as the timestamp exactly when it is a LONG field
      of the catalog. */
  lemma TsFieldChoice(fieldsArr: seq<Field>, f: Field)
    ensures FieldOption(f) in TsFieldOptions(fieldsArr) <==> IsLong(f) && f in fieldsArr
  {
    var r := TsFieldOptions(fieldsArr);
    var longs := LongFields(fieldsArr);
    if FieldOption(f) in r {
      var j :| 0 <= j < |r| && r[j] == FieldOption(f);
      assert j < |r| - 1;
      assert longs[j] == f;
    }
    if IsLong(f) && f in fieldsArr {
      var i :| 0 <= i < |fieldsArr| && fieldsArr[i] == f;
      var j :| 0 <= j < |longs| && longs[j] == f;
      assert r[j] == FieldOption(f);
    }
  }
}
