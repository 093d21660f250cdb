/** The windowing-aggregate processor form (WindowingAggregateNodeForm.jsx)
    as a state machine: the component state and instance fields, and one
    method per handler. React's `setState` is taken to apply at once, the
    parent form's `outputStreamObj` is a field the methods overwrite, and the
    REST calls are replaced by what they would send or receive. */
module Form {
  import opened Wrappers
  import opened JsString
  import opened JsArray
  import opened Projections
  import opened WindowSpec
  import opened Schema
  import opened Validation
  import opened Topology

  /** The `fields` of the stream object shared with the parent form: not yet
      set, the form's own field entries, or a schema built by
      generateOutputFields when a stored rule is loaded. */
  datatype StreamFields = NoFields | RawFields(fields: seq<Field>) | BuiltFields(schema: seq<SchemaField>)

  /** `tempStreamContextData`, the object published as the parent's
      `outputStreamObj`. */
  datatype StreamObj = StreamObj(streamId: Option<string>, fields: StreamFields)

  /** What `ProcessorUtils.getReturnTypeFromCodemirror` returns for a script;
      `""` for a missing key. */
  datatype Inference = Inference(returnType: string, error: string)

  /** `getReturnTypeFromCodemirror(script, functionListArr, fieldsHintArr)`,
      which is not part of this model. */
  type Infer = (string, seq<Udf>, seq<Field>) -> Inference

  /** What `ProcessorUtils.getKeysAndGroupKey` returns. */
  datatype KeysAndGroups = KeysAndGroups(keys: seq<string>, gKeys: seq<string>)

  /** The key helpers of `ProcessorUtils`, which are not part of this model:
      `normalizationProjectionKeys(...).keyArrObj`, `getKeysAndGroupKey` and
      `createSelectedKeysHierarchy`. */
  datatype KeyHelpers = KeyHelpers(normalize: (seq<Projection>, seq<Field>) -> seq<Field>,
                                   keysAndGroups: seq<Field> -> KeysAndGroups,
                                   hierarchy: (seq<Field>, seq<Field>) -> seq<Field>)

  /** The three number inputs the form renders. */
  datatype NumberInput = WindowNumInput | SlidingNumInput | LagMsInput

  /** The rule request getDataFromParentFormContext issues: fetch the
      configured rule, or create the placeholder rule. */
  datatype RuleRequest = FetchRule(ref: RuleRef) | CreateRule(body: DummyRule)

  /** How handleSave ends: nothing done without a rule id; an exception before
      any request; an exception in updateEdges after the processor and rule
      updates were sent; or all three updates sent. */
  datatype SaveOutcome = NotSaved | SaveThrew(reason: string) | EdgeLookupFailed(reason: string)
                       | Submitted(edge: EdgeUpdate)

  function Abs(n: int): nat {
    if n < 0 then -n else n
  }

  // ------------------------------------------------------ spec functions

  /** `_.findIndex(rows, blank)`: the first row with neither a condition nor a
      name. */
  function BlankIndex(rows: seq<Row>): (r: Option<nat>)
    ensures r.Some? ==> r.value < |rows| && rows[r.value].conditions == "" && rows[r.value].outputFieldName == ""
    ensures r.Some? ==> forall j :: 0 <= j < r.value ==> !(rows[j].conditions == "" && rows[j].outputFieldName == "")
    ensures r.None? ==> forall j :: 0 <= j < |rows| ==> !(rows[j].conditions == "" && rows[j].outputFieldName == "")
  {
    if rows == [] then None
    else if rows[0].conditions == "" && rows[0].outputFieldName == "" then Some(0)
    else match BlankIndex(rows[1..])
      case None => None
      case Some(i) => Some(i + 1)
  }

  /** The inference setParentContextOutputStream makes for row `index`: the
      helper's answer on the trimmed script, or nothing for an empty one. */
  function InferRow(rows: seq<Row>, index: nat, functions: seq<Udf>, hints: seq<Field>, infer: Infer): Inference
    requires index < |rows|
  {
    if rows[index].conditions != "" then infer(Trim(rows[index].conditions), functions, hints) else Inference("", "")
  }

  /** The output entries setParentContextOutputStream leaves: entry `index`
      is set to the row's name and inferred type (a shorter array is padded
      with holes), then the slot of the first blank row is spliced out. */
  function PublishedEntries(entries: seq<Field>, rows: seq<Row>, index: nat, returnType: string): seq<Field>
    requires index < |rows|
  {
    var main := AssignAt(entries, index, NamedType(rows[index].outputFieldName, returnType), Hole);
    match BlankIndex(rows)
    case None => main
    case Some(b) => SpliceOne(main, b)
  }

  /** Without a blank row, row `index`'s entry carries its name and type and
      every other existing entry is kept. */
  lemma PublishedWithoutBlank(entries: seq<Field>, rows: seq<Row>, index: nat, returnType: string)
    requires index < |rows|
    requires BlankIndex(rows).None?
    ensures var p := PublishedEntries(entries, rows, index, returnType);
            && |p| == (if index < |entries| then |entries| else index + 1)
            && p[index] == NamedType(rows[index].outputFieldName, returnType)
            && (forall j :: 0 <= j < |entries| && j != index ==> p[j] == entries[j])
  {
  }

  /** With a blank row inside the padded array, that slot is removed and the
      other entries keep their order. */
  lemma PublishedDropsBlankSlot(entries: seq<Field>, rows: seq<Row>, index: nat, returnType: string)
    requires index < |rows|
    requires BlankIndex(rows).Some?
    requires BlankIndex(rows).value < (if index < |entries| then |entries| else index + 1)
    ensures var main := AssignAt(entries, index, NamedType(rows[index].outputFieldName, returnType), Hole);
            var b := BlankIndex(rows).value;
            PublishedEntries(entries, rows, index, returnType) == main[..b] + main[b + 1..]
  {
    var main := AssignAt(entries, index, NamedType(rows[index].outputFieldName, returnType), Hole);
    SpliceOneInside(main, BlankIndex(rows).value);
  }

  /** Two blank rows before the edited one leave a hole in the published
      entries: with one entry published and rows 1 and 2 blank, editing row 3
      pads to four slots and the splice removes only one of the two holes. */
  lemma TwoBlankRowsLeaveHole(e0: Field, r0: Row, r3: Row, returnType: string)
    requires r0.conditions != "" && r3.conditions != ""
    ensures var rows := [r0, Row("", "", false), Row("", "", false), r3];
            PublishedEntries([e0], rows, 3, returnType)
            == [e0, Hole, NamedType(r3.outputFieldName, returnType)]
  {
    var rows := [r0, Row("", "", false), Row("", "", false), r3];
    assert BlankIndex(rows[1..]) == Some(0);
    assert BlankIndex(rows) == Some(1);
    var main := AssignAt([e0], 3, NamedType(r3.outputFieldName, returnType), Hole);
    assert main == [e0, Hole, Hole, NamedType(r3.outputFieldName, returnType)];
  }

  /** A hole among the output entries makes generateOutputFields throw, so a
      save after the edit above fails before any request is sent. */
  lemma HoleBreaksOutputSchema(keys: seq<Field>, entries: seq<Field>, i: nat, cat: Catalogs)
    requires i < |entries| && entries[i] == Hole
    ensures GenerateOutputFields(keys + entries, cat).TypeError?
  {
    assert (keys + entries)[|keys| + i] == Hole;
  }

  /** The stream ids of the input stream options, in order. */
  function StreamIds(options: seq<StreamOption>): (ids: seq<string>)
    ensures |ids| == |options|
  {
    if options == [] then [] else StreamIds(options[..|options| - 1]) + [options[|options| - 1].streamId]
  }

  /** All fields of the input streams, stream after stream. */
  function AllFields(options: seq<StreamOption>): seq<Field> {
    if options == [] then [] else AllFields(options[..|options| - 1]) + options[|options| - 1].fields
  }

  /** The output entries populateOutputStreamsFromServer derives from the
      stored rows: the row's name and the type inferred from its condition. */
  function InferredEntries(rows: seq<Row>, functions: seq<Udf>, hints: seq<Field>, infer: Infer): (r: seq<Field>)
    ensures |r| == |rows|
    ensures forall i :: 0 <= i < |rows| ==>
              r[i] == NamedType(rows[i].outputFieldName, infer(rows[i].conditions, functions, hints).returnType)
  {
    seq(|rows|, i requires 0 <= i < |rows| =>
          NamedType(rows[i].outputFieldName, infer(rows[i].conditions, functions, hints).returnType))
  }

  /** What populateOutputStreamsFromServer reads from a stored rule. */
  datatype Loaded = Loaded(rows: seq<Row>, entries: seq<Field>, keys: KeysAndGroups, keyData: seq<Field>,
                           window: WindowForm, stream: StreamObj)

  /** populateOutputStreamsFromServer on a rule with projections, given the
      window inputs as they were: the projections are split into rows and
      key names, the rows get output entries with inferred types, the keys
      are resolved through the key helpers, the window is read back, and the
      output schema of the keys and entries is built for the rule's first
      stream. It throws when that schema meets a hole or the rule has no
      window. */
  function LoadRule(projections: seq<Projection>, streams: seq<Option<string>>, window: Option<Window>,
                    prior: WindowForm, keysList: seq<Field>, functions: seq<Udf>, hints: seq<Field>,
                    helpers: KeyHelpers, infer: Infer, keyList: (seq<string>, seq<Field>) -> Option<Field>,
                    fromMs: Option<int> -> Amount): (r: Result<Loaded>)
    ensures var parsed := ParseProjections(projections);
            var keyArrObj := helpers.normalize(parsed.fieldKeyArr, keysList);
            var keyData := helpers.hierarchy(keyArrObj, keysList);
            var entries := InferredEntries(parsed.conditionsArr, functions, hints, infer);
            var schema := GenerateOutputFields(keyData + entries, Catalogs(functions, keysList, keyList));
            r.Ok? <==> schema.Ok? && window.Some?
  {
    var parsed := ParseProjections(projections);
    var keyArrObj := helpers.normalize(parsed.fieldKeyArr, keysList);
    var keyData := helpers.hierarchy(keyArrObj, keysList);
    var entries := InferredEntries(parsed.conditionsArr, functions, hints, infer);
    match GenerateOutputFields(keyData + entries, Catalogs(functions, keysList, keyList))
    case TypeError(reason) => TypeError(reason)
    case Ok(schema) =>
      match window
      case None => TypeError("Cannot read property 'windowLength' of undefined")
      case Some(w) =>
        Ok(Loaded(parsed.conditionsArr, entries, helpers.keysAndGroups(keyArrObj), keyData,
                  HydrateWindow(w, prior, fromMs),
                  StreamObj(if |streams| > 0 then streams[0] else None, BuiltFields(schema))))
  }

  /** The loop of deleteFieldRow that marks every remaining row pre-filled. */
  method MarkPrefetched(rows: seq<Row>) returns (marked: seq<Row>)
    ensures marked == Prefetched(rows)
  {
    marked := [];
    var i := 0;
    while i < |rows|
      invariant 0 <= i <= |rows|
      invariant marked == Prefetched(rows[..i])
    {
      assert rows[..i + 1][..i] == rows[..i];
      marked := marked + [rows[i].(prefetchData := true)];
      i := i + 1;
    }
    assert rows[..i] == rows;
  }

  /** The loop of getDataFromParentFormContext over the input streams: each
      stream id is appended to `streamIdList` and its fields to `fields`. */
  method CollectInputStreams(streamIdList: seq<string>, options: seq<StreamOption>)
    returns (ids: seq<string>, fields: seq<Field>)
    ensures ids == streamIdList + StreamIds(options)
    ensures fields == AllFields(options)
  {
    ids := streamIdList;
    fields := [];
    var i := 0;
    while i < |options|
      invariant 0 <= i <= |options|
      invariant ids == streamIdList + StreamIds(options[..i])
      invariant fields == AllFields(options[..i])
    {
      assert options[..i + 1][..i] == options[..i];
      ids := ids + [options[i].streamId];
      fields := fields + options[i].fields;
      i := i + 1;
    }
    assert options[..i] == options;
  }

  // --------------------------------------------------------------- form

  class WindowingAggregateNodeForm {
    // component state
    var editMode: bool
    var parallelism: int
    var selectedKeys: seq<string>
    var windowSelectedKeys: seq<Field>
    var groupByKeys: seq<string>
    var keysList: seq<Field>
    var intervalType: string
    var windowNum: InputValue
    var slidingNum: InputValue
    var durationType: string
    var slidingDurationType: string
    var tsField: string
    var lagMs: InputValue
    var outputFieldsArr: seq<Row>
    var functionListArr: seq<Udf>
    var outputStreamFields: seq<Field>
    var argumentError: bool
    var errorString: Option<string>
    var showLoading: bool
    var scriptErrors: seq<Option<string>>
    var invalidInput: bool
    var tsFieldOptions: seq<TsOption>

    // instance fields
    var fetchDataAgain: bool
    var fieldsArr: seq<Field>
    var fieldsHintArr: seq<Field>
    var streamIdList: seq<string>
    var tempStreamContextData: StreamObj
    var windowsNode: ProcessorNode?
    var windowsRuleId: RuleRef
    var windowRulesNode: RuleNode?
    var outputStreamStringArr: seq<string>

    /** The parent form's `outputStreamObj`, as last published. */
    var parentOutputStream: Option<StreamObj>

    /** The window inputs of the state. */
    function WindowInputs(): WindowForm
      reads this
    {
      WindowForm(intervalType, windowNum, slidingNum, durationType, slidingDurationType, tsField, lagMs)
    }

    /** A rule id is only ever recorded after the processor node. The
        constructor, GetDataFromParentFormContext and AttachCreatedRule
        establish it; every other method leaves `windowsRuleId` and
        `windowsNode` out of its `modifies` frame, so it keeps holding. */
    predicate Valid()
      reads this
    {
      Assigned(windowsRuleId) ==> windowsNode != null
    }

    /** The initial state: one blank row, Duration window in seconds, no
        timestamp, and no `errorString` at all. */
    constructor (editMode: bool)
      ensures Valid()
      ensures this.editMode == editMode && parallelism == 1
      ensures WindowInputs() == InitialForm
      ensures outputFieldsArr == [Row("", "", false)]
      ensures selectedKeys == [] && windowSelectedKeys == [] && groupByKeys == [] && keysList == []
      ensures functionListArr == [] && outputStreamFields == [] && scriptErrors == []
      ensures !argumentError && errorString.None? && showLoading
      ensures !fetchDataAgain && fieldsArr == [] && streamIdList == []
      ensures tempStreamContextData == StreamObj(None, NoFields)
      ensures windowsNode == null && windowsRuleId == NoRules && windowRulesNode == null
      ensures parentOutputStream.None?
    {
      this.editMode := editMode;
      parallelism := 1;
      selectedKeys := [];
      windowSelectedKeys := [];
      groupByKeys := [];
      keysList := [];
      intervalType := Duration;
      windowNum := Text("");
      slidingNum := Text("");
      durationType := "Seconds";
      slidingDurationType := "Seconds";
      tsField := "";
      lagMs := Text("");
      outputFieldsArr := [Row("", "", false)];
      functionListArr := [];
      outputStreamFields := [];
      argumentError := false;
      errorString := None;
      showLoading := true;
      scriptErrors := [];
      invalidInput := false;
      tsFieldOptions := [];
      fetchDataAgain := false;
      fieldsArr := [];
      fieldsHintArr := [];
      streamIdList := [];
      tempStreamContextData := StreamObj(None, NoFields);
      windowsNode := null;
      windowsRuleId := NoRules;
      windowRulesNode := null;
      outputStreamStringArr := [];
      parentOutputStream := None;
    }

    // ------------------------------------------------------ input handlers

    /** handleValueChange on one of the number inputs: the input keeps the
        absolute value; the window number also sets the sliding number. */
    method HandleValueChange(input: NumberInput, number: int)
      modifies this`windowNum, this`slidingNum, this`lagMs
      ensures input == WindowNumInput ==> windowNum == Num(Abs(number)) && slidingNum == Num(Abs(number))
                                          && lagMs == old(lagMs)
      ensures input == SlidingNumInput ==> slidingNum == Num(Abs(number))
                                           && windowNum == old(windowNum) && lagMs == old(lagMs)
      ensures input == LagMsInput ==> lagMs == Num(Abs(number))
                                      && windowNum == old(windowNum) && slidingNum == old(slidingNum)
    {
      var value := Num(Abs(number));
      match input
      case WindowNumInput =>
        windowNum := value;
        slidingNum := value;
      case SlidingNumInput =>
        slidingNum := value;
      case LagMsInput =>
        lagMs := value;
    }

    /** commonHandlerChange: a cleared selection changes nothing; a duration
        unit also sets the sliding unit; any key other than the two units
        sets the interval type. */
    method CommonHandlerChange(keyType: string, selected: Option<string>)
      modifies this`durationType, this`slidingDurationType, this`intervalType
      ensures selected.None? ==> unchanged(this)
      ensures selected.Some? && Trim(keyType) == "durationType" ==>
                durationType == selected.value && slidingDurationType == selected.value
                && intervalType == old(intervalType)
      ensures selected.Some? && Trim(keyType) == "slidingDurationType" ==>
                slidingDurationType == selected.value
                && durationType == old(durationType) && intervalType == old(intervalType)
      ensures selected.Some? && Trim(keyType) != "durationType" && Trim(keyType) != "slidingDurationType" ==>
                intervalType == selected.value
                && durationType == old(durationType) && slidingDurationType == old(slidingDurationType)
    {
      if selected.Some? {
        var keyName := Trim(keyType);
        if keyName == "durationType" {
          durationType := selected.value;
          slidingDurationType := selected.value;
        } else if keyName == "slidingDurationType" {
          slidingDurationType := selected.value;
        } else {
          intervalType := selected.value;
        }
      }
    }

    /** handleTimestampFieldChange: a selection sets the field name; clearing
        it empties both the field and the lag. */
    method HandleTimestampFieldChange(selected: Option<string>)
      modifies this`tsField, this`lagMs
      ensures selected.Some? ==> tsField == selected.value && lagMs == old(lagMs)
      ensures selected.None? ==> tsField == "" && lagMs == Text("")
    {
      if selected.Some? {
        tsField := selected.value;
      } else {
        tsField := "";
        lagMs := Text("");
      }
    }

    /** handleKeysChange: the selected keys become the group keys, and the
        published fields become the key hierarchy followed by the output
        entries. */
    method HandleKeysChange(arr: seq<Field>, helpers: KeyHelpers)
      modifies this`tempStreamContextData, this`selectedKeys, this`groupByKeys, this`windowSelectedKeys,
               this`parentOutputStream
      ensures windowSelectedKeys == helpers.hierarchy(arr, keysList)
      ensures selectedKeys == helpers.keysAndGroups(arr).keys && groupByKeys == helpers.keysAndGroups(arr).gKeys
      ensures tempStreamContextData == old(tempStreamContextData).(fields := RawFields(windowSelectedKeys + outputStreamFields))
      ensures parentOutputStream == Some(tempStreamContextData)
    {
      var keyData := helpers.hierarchy(arr, keysList);
      var published := if |outputStreamFields| > 0 then keyData + outputStreamFields else keyData;
      assert |outputStreamFields| == 0 ==> keyData + outputStreamFields == keyData;
      tempStreamContextData := tempStreamContextData.(fields := RawFields(published));
      var kg := helpers.keysAndGroups(arr);
      selectedKeys := kg.keys;
      groupByKeys := kg.gKeys;
      windowSelectedKeys := keyData;
      parentOutputStream := Some(tempStreamContextData);
    }

    // ---------------------------------------------------------- row editing

    /** addOutputFields: in edit mode a blank row is appended. */
    method AddOutputFields()
      modifies this`outputFieldsArr
      ensures editMode ==> outputFieldsArr == old(outputFieldsArr) + [Row("", "", false)]
      ensures !editMode ==> outputFieldsArr == old(outputFieldsArr)
    {
      if editMode {
        outputFieldsArr := outputFieldsArr + [Row("", "", false)];
      }
    }

    /** deleteFieldRow: the row and its output entry are spliced out of both
        arrays, the remaining rows are all marked pre-filled, and the
        published fields become the key hierarchy followed by the remaining
        entries. */
    method DeleteFieldRow(index: int)
      modifies this`outputFieldsArr, this`outputStreamFields, this`tempStreamContextData, this`parentOutputStream
      ensures outputFieldsArr == Prefetched(SpliceOne(old(outputFieldsArr), index))
      ensures outputStreamFields == SpliceOne(old(outputStreamFields), index)
      ensures tempStreamContextData == old(tempStreamContextData).(fields := RawFields(windowSelectedKeys + outputStreamFields))
      ensures parentOutputStream == Some(tempStreamContextData)
    {
      var rows := SpliceOne(outputFieldsArr, index);
      var mainOutputFields := SpliceOne(outputStreamFields, index);
      tempStreamContextData := tempStreamContextData.(fields := RawFields(windowSelectedKeys + mainOutputFields));
      rows := MarkPrefetched(rows);
      outputFieldsArr := rows;
      outputStreamFields := mainOutputFields;
      parentOutputStream := Some(tempStreamContextData);
    }

    /** setParentContextOutputStream: row `index`'s output entry is rebuilt
        from its name and the type inferred from its script, the inference
        error (if any) is recorded, and the key hierarchy followed by the
        entries is published under the first input stream. */
    method SetParentContextOutputStream(index: nat, infer: Infer)
      requires index < |outputFieldsArr|
      modifies this`outputStreamFields, this`tempStreamContextData, this`argumentError, this`errorString,
               this`parentOutputStream
      ensures var inf := InferRow(outputFieldsArr, index, functionListArr, fieldsHintArr, infer);
              && outputStreamFields == PublishedEntries(old(outputStreamFields), outputFieldsArr, index, inf.returnType)
              && argumentError == (inf.error != "")
              && errorString == Some(inf.error)
      ensures tempStreamContextData ==
              StreamObj(if |streamIdList| > 0 then Some(streamIdList[0]) else None,
                        RawFields(windowSelectedKeys + outputStreamFields))
      ensures parentOutputStream == Some(tempStreamContextData)
    {
      var inf := Inference("", "");
      if outputFieldsArr[index].conditions != "" {
        inf := infer(Trim(outputFieldsArr[index].conditions), functionListArr, fieldsHintArr);
      }
      var entry := NamedType(outputFieldsArr[index].outputFieldName, inf.returnType);
      var mainObj := AssignAt(outputStreamFields, index, entry, Hole);
      var bIndex := BlankIndex(outputFieldsArr);
      if bIndex.Some? {
        mainObj := SpliceOne(mainObj, bIndex.value);
      }
      argumentError := inf.error != "";
      errorString := Some(inf.error);
      PublishEntries(mainObj);
    }

    /** The end of setParentContextOutputStream: the entries are kept, and
        the key hierarchy followed by them is published under the first
        input stream. */
    method PublishEntries(entries: seq<Field>)
      modifies this`outputStreamFields, this`tempStreamContextData, this`parentOutputStream
      ensures outputStreamFields == entries
      ensures tempStreamContextData ==
              StreamObj(if |streamIdList| > 0 then Some(streamIdList[0]) else None,
                        RawFields(windowSelectedKeys + entries))
      ensures parentOutputStream == Some(tempStreamContextData)
    {
      var streamId := if |streamIdList| > 0 then Some(streamIdList[0]) else None;
      tempStreamContextData := StreamObj(streamId, RawFields(windowSelectedKeys + entries));
      outputStreamFields := entries;
      parentOutputStream := Some(tempStreamContextData);
    }

    /** handleScriptChange: row `index` takes the new script, an empty script
        flags the input, and the output entry of the row is republished. */
    method HandleScriptChange(index: nat, val: string, infer: Infer)
      requires index < |outputFieldsArr|
      modifies this`outputFieldsArr, this`invalidInput, this`outputStreamFields, this`tempStreamContextData,
               this`argumentError, this`errorString, this`parentOutputStream
      ensures outputFieldsArr == old(outputFieldsArr)[index := old(outputFieldsArr)[index].(conditions := val)]
      ensures invalidInput == (val == "")
      ensures var inf := InferRow(outputFieldsArr, index, functionListArr, fieldsHintArr, infer);
              && outputStreamFields == PublishedEntries(old(outputStreamFields), outputFieldsArr, index, inf.returnType)
              && argumentError == (inf.error != "")
              && errorString == Some(inf.error)
      ensures tempStreamContextData ==
              StreamObj(if |streamIdList| > 0 then Some(streamIdList[0]) else None,
                        RawFields(windowSelectedKeys + outputStreamFields))
      ensures parentOutputStream == Some(tempStreamContextData)
    {
      invalidInput := val == "";
      outputFieldsArr := outputFieldsArr[index := outputFieldsArr[index].(conditions := val)];
      SetParentContextOutputStream(index, infer);
    }

    /** handleFieldNameChange: row `index` takes the new output name, an empty
        name flags the input, and the output entry of the row is
        republished. */
    method HandleFieldNameChange(index: nat, value: string, infer: Infer)
      requires index < |outputFieldsArr|
      modifies this`outputFieldsArr, this`invalidInput, this`outputStreamFields, this`tempStreamContextData,
               this`argumentError, this`errorString, this`parentOutputStream
      ensures outputFieldsArr == old(outputFieldsArr)[index := old(outputFieldsArr)[index].(outputFieldName := value)]
      ensures invalidInput == (value == "")
      ensures var inf := InferRow(outputFieldsArr, index, functionListArr, fieldsHintArr, infer);
              && outputStreamFields == PublishedEntries(old(outputStreamFields), outputFieldsArr, index, inf.returnType)
              && argumentError == (inf.error != "")
              && errorString == Some(inf.error)
      ensures tempStreamContextData ==
              StreamObj(if |streamIdList| > 0 then Some(streamIdList[0]) else None,
                        RawFields(windowSelectedKeys + outputStreamFields))
      ensures parentOutputStream == Some(tempStreamContextData)
    {
      invalidInput := value == "";
      outputFieldsArr := outputFieldsArr[index := outputFieldsArr[index].(outputFieldName := value)];
      SetParentContextOutputStream(index, infer);
    }

    // ------------------------------------------------------ loading

    /** getDataFromParentFormContext: takes over the processor node and its
        rule reference, appends the input stream ids, merges the input
        fields into the key catalog (`schemaFields` is
        `ProcessorUtils.getSchemaFields`, not part of this model), offers the
        LONG fields and processing time as timestamps, and asks for the
        configured rule or for a new placeholder rule. */
    method GetDataFromParentFormContext(processorNode: ProcessorNode, inputStreamOptions: seq<StreamOption>,
                                       udfList: seq<Udf>, schemaFields: seq<Field> -> seq<Field>)
      returns (request: RuleRequest)
      modifies this`fetchDataAgain, this`windowsNode, this`windowsRuleId, this`streamIdList, this`fieldsArr,
               this`fieldsHintArr, this`tsFieldOptions, this`parallelism, this`keysList, this`functionListArr
      ensures Valid()
      ensures fetchDataAgain && windowsNode == processorNode && windowsRuleId == processorNode.rules
      ensures streamIdList == old(streamIdList) + StreamIds(inputStreamOptions)
      ensures fieldsHintArr == UnionByName(AllFields(inputStreamOptions))
      ensures fieldsArr == schemaFields(fieldsHintArr) && keysList == fieldsArr
      ensures tsFieldOptions == TsFieldOptions(fieldsArr)
      ensures functionListArr == udfList
      ensures parallelism == match processorNode.parallelism
                             case Some(p) => (if p != 0 then p else 1)
                             case None => 1
      ensures request == if Assigned(processorNode.rules) then FetchRule(processorNode.rules)
                         else CreateRule(AutoGeneratedRule)
    {
      fetchDataAgain := true;
      windowsNode := processorNode;
      windowsRuleId := processorNode.rules;
      ReadInputStreams(inputStreamOptions, schemaFields);
      parallelism := match processorNode.parallelism
                     case Some(p) => (if p != 0 then p else 1)
                     case None => 1;
      functionListArr := udfList;
      if Assigned(windowsRuleId) {
        request := FetchRule(windowsRuleId);
      } else {
        request := CreateRule(AutoGeneratedRule);
      }
    }

    /** The input-stream part of getDataFromParentFormContext: stream ids,
        the field catalog (first field of each name) and the timestamp
        options. */
    method ReadInputStreams(inputStreamOptions: seq<StreamOption>, schemaFields: seq<Field> -> seq<Field>)
      modifies this`streamIdList, this`fieldsArr, this`fieldsHintArr, this`tsFieldOptions, this`keysList
      ensures streamIdList == old(streamIdList) + StreamIds(inputStreamOptions)
      ensures fieldsHintArr == UnionByName(AllFields(inputStreamOptions))
      ensures fieldsArr == schemaFields(fieldsHintArr) && keysList == fieldsArr
      ensures tsFieldOptions == TsFieldOptions(fieldsArr)
    {
      var ids, fields := CollectInputStreams(streamIdList, inputStreamOptions);
      streamIdList := ids;
      var hints := UnionByName(fields);
      fieldsArr := schemaFields(hints);
      fieldsHintArr := hints;
      tsFieldOptions := TsFieldOptions(fieldsArr);
      keysList := fieldsArr;
    }

    /** The callback of the placeholder rule's creation: the rule is kept,
        its id becomes the rule id, and the processor now lists it. */
    method AttachCreatedRule(rule: RuleNode)
      requires windowsNode != null
      modifies this`windowRulesNode, this`windowsRuleId, this`showLoading, windowsNode`rules
      ensures windowRulesNode == rule && windowsRuleId == RuleId(rule.id) && !showLoading
      ensures windowsNode.rules == RuleList([rule.id])
      ensures Valid()
    {
      windowRulesNode := rule;
      windowsRuleId := RuleId(rule.id);
      windowsNode.rules := RuleList([rule.id]);
      showLoading := false;
    }

    /** The callback of the configured rule's fetch: the rule is kept and
        read into the form. Reading it back ends the loading state unless it
        throws. */
    method AttachFetchedRule(rule: RuleNode, helpers: KeyHelpers, infer: Infer,
                             keyList: (seq<string>, seq<Field>) -> Option<Field>,
                             fromMs: Option<int> -> Amount)
      returns (r: Result<()>)
      modifies this`windowRulesNode
      modifies this`showLoading, this`outputFieldsArr, this`outputStreamFields, this`selectedKeys,
               this`windowSelectedKeys, this`groupByKeys, this`intervalType, this`windowNum, this`slidingNum,
               this`durationType, this`slidingDurationType, this`tsField, this`lagMs,
               this`tempStreamContextData, this`parentOutputStream
      ensures windowRulesNode == rule
      ensures r.Ok? ==> !showLoading
      ensures r.TypeError? ==> outputFieldsArr == old(outputFieldsArr) && WindowInputs() == old(WindowInputs())
    {
      windowRulesNode := rule;
      r := PopulateOutputStreamsFromServer(rule, helpers, infer, keyList, fromMs);
    }

    /** populateOutputStreamsFromServer: a stored rule with projections is
        read back into rows, keys, output entries and window inputs, and the
        output schema built from it is published, all as LoadRule computes
        them. A rule without projections only ends the loading state. When
        LoadRule throws, nothing changes. */
    method PopulateOutputStreamsFromServer(rule: RuleNode, helpers: KeyHelpers, infer: Infer,
                                           keyList: (seq<string>, seq<Field>) -> Option<Field>,
                                           fromMs: Option<int> -> Amount)
      returns (r: Result<()>)
      modifies this`showLoading, this`outputFieldsArr, this`outputStreamFields, this`selectedKeys,
               this`windowSelectedKeys, this`groupByKeys, this`intervalType, this`windowNum, this`slidingNum,
               this`durationType, this`slidingDurationType, this`tsField, this`lagMs,
               this`tempStreamContextData, this`parentOutputStream
      ensures |rule.projections| == 0 ==> r.Ok? && !showLoading && outputFieldsArr == old(outputFieldsArr)
                                          && WindowInputs() == old(WindowInputs())
      ensures r.TypeError? ==> unchanged(this)
      ensures |rule.projections| > 0 ==>
                var load := old(LoadRule(rule.projections, rule.streams, rule.window, WindowInputs(), keysList,
                                         functionListArr, fieldsHintArr, helpers, infer, keyList, fromMs));
                && (load.TypeError? ==> r.TypeError?)
                && (load.Ok? ==>
                      && r.Ok? && !showLoading
                      && outputFieldsArr == load.value.rows && outputStreamFields == load.value.entries
                      && selectedKeys == load.value.keys.keys && groupByKeys == load.value.keys.gKeys
                      && windowSelectedKeys == load.value.keyData
                      && WindowInputs() == load.value.window
                      && tempStreamContextData == load.value.stream
                      && parentOutputStream == Some(load.value.stream))
    {
      if |rule.projections| == 0 {
        showLoading := false;
        return Ok(());
      }
      var load := LoadRule(rule.projections, rule.streams, rule.window, WindowInputs(), keysList,
                           functionListArr, fieldsHintArr, helpers, infer, keyList, fromMs);
      if load.TypeError? {
        return TypeError(load.reason);
      }
      var loaded := load.value;
      ShowLoadedRule(loaded);
      r := Ok(());
    }

    /** The `setState` that shows a loaded rule, and the publication of its
        stream to the parent form. */
    method ShowLoadedRule(loaded: Loaded)
      modifies this`showLoading, this`outputFieldsArr, this`outputStreamFields, this`selectedKeys,
               this`windowSelectedKeys, this`groupByKeys, this`intervalType, this`windowNum, this`slidingNum,
               this`durationType, this`slidingDurationType, this`tsField, this`lagMs,
               this`tempStreamContextData, this`parentOutputStream
      ensures !showLoading && outputFieldsArr == loaded.rows && outputStreamFields == loaded.entries
      ensures selectedKeys == loaded.keys.keys && groupByKeys == loaded.keys.gKeys
      ensures windowSelectedKeys == loaded.keyData && WindowInputs() == loaded.window
      ensures tempStreamContextData == loaded.stream && parentOutputStream == Some(loaded.stream)
    {
      showLoading := false;
      outputFieldsArr := loaded.rows;
      outputStreamFields := loaded.entries;
      selectedKeys := loaded.keys.keys;
      windowSelectedKeys := loaded.keyData;
      groupByKeys := loaded.keys.gKeys;
      tempStreamContextData := loaded.stream;
      parentOutputStream := Some(loaded.stream);
      SetWindowInputs(loaded.window);
    }

    /** The `setState` of the window inputs. */
    method SetWindowInputs(w: WindowForm)
      modifies this`intervalType, this`windowNum, this`slidingNum, this`durationType, this`slidingDurationType,
               this`tsField, this`lagMs
      ensures WindowInputs() == w
    {
      intervalType := w.intervalType;
      windowNum := w.windowNum;
      slidingNum := w.slidingNum;
      durationType := w.durationType;
      slidingDurationType := w.slidingDurationType;
      tsField := w.tsField;
      lagMs := w.lagMs;
    }

    // ------------------------------------------------------------ saving

    /** validateData, with the worker results given in row order; it changes
        `scriptErrors` only when the checks run to the end. */
    method ValidateData(results: seq<WorkerResult>) returns (outcome: Outcome)
      requires |results| == |outputFieldsArr|
      modifies this`scriptErrors
      ensures outcome == Validate(argumentError, windowNum, errorString, tsField, lagMs, outputFieldsArr, results)
      ensures scriptErrors == if outcome.Resolved? then outcome.scriptErrors else old(scriptErrors)
    {
      if argumentError || windowNum == Text("") {
        return Refused;
      }
      if errorString.None? {
        return Threw("Cannot read property 'length' of undefined");
      }
      if |errorString.value| > 0 {
        return Refused;
      }
      var lagMissing := LagMissing(tsField, lagMs);
      var validData: seq<Row> := [];
      var i := 0;
      while i < |outputFieldsArr|
        invariant 0 <= i <= |outputFieldsArr|
        invariant lagMissing ==> forall k :: 0 <= k < i ==> Complete(outputFieldsArr[k])
        invariant |validData| == 0 <==> forall k :: 0 <= k < i ==> Complete(outputFieldsArr[k])
      {
        if !Complete(outputFieldsArr[i]) {
          if lagMissing {
            return Threw("validData.push is not a function");
          }
          validData := validData + [outputFieldsArr[i]];
        }
        i := i + 1;
      }
      var arr: seq<Option<string>> := [];
      var reported := false;
      var j := 0;
      while j < |results|
        invariant 0 <= j <= |results|
        invariant arr == ScriptErrors(results[..j])
        invariant reported <==> exists k :: 0 <= k < j && Reported(arr[k])
      {
        var err := ScriptError(results[j]);
        assert results[..j + 1] == results[..j] + [results[j]];
        arr := arr + [err];
        reported := reported || Reported(err);
        j := j + 1;
      }
      assert results[..j] == results;
      var flag := !lagMissing && |validData| == 0 && !reported;
      if flag {
        arr := [];
      }
      scriptErrors := arr;
      outcome := Resolved(flag, arr);
    }

    /** updateProcessorNode: the processor's output streams all get the
        schema built from the key hierarchy followed by the output entries
        (one stream per stored output-stream name when it had none), and its
        parallelism, description and name are set. A hole among the entries
        throws before the node is touched. */
    method UpdateProcessorNode(name: string, description: string,
                               keyList: (seq<string>, seq<Field>) -> Option<Field>)
      returns (r: Result<ProcessorNode>)
      requires windowsNode != null
      modifies windowsNode`outputStreams, windowsNode`parallelism, windowsNode`description, windowsNode`name
      ensures var schema := GenerateOutputFields(windowSelectedKeys + outputStreamFields,
                                                 Catalogs(functionListArr, keysList, keyList));
              && (schema.TypeError? ==> r.TypeError? && unchanged(windowsNode))
              && (schema.Ok? ==>
                    && r.Ok? && r.value == windowsNode
                    && windowsNode.outputStreams
                       == StreamsAfterUpdate(old(windowsNode.outputStreams), outputStreamStringArr, schema.value)
                    && windowsNode.parallelism == Some(parallelism)
                    && windowsNode.description == description && windowsNode.name == name)
    {
      var streamFields := GenerateOutputFields(windowSelectedKeys + outputStreamFields,
                                               Catalogs(functionListArr, keysList, keyList));
      if streamFields.TypeError? {
        return TypeError(streamFields.reason);
      }
      var node := windowsNode;
      var current := node.outputStreams;
      if |current| > 0 {
        var i := 0;
        while i < |current|
          invariant 0 <= i <= |current|
          invariant |node.outputStreams| == |current|
          invariant forall k :: 0 <= k < i ==> node.outputStreams[k] == current[k].(fields := streamFields.value)
          invariant forall k :: i <= k < |current| ==> node.outputStreams[k] == current[k]
        {
          node.outputStreams := node.outputStreams[i := current[i].(fields := streamFields.value)];
          i := i + 1;
        }
      } else {
        var j := 0;
        while j < |outputStreamStringArr|
          invariant 0 <= j <= |outputStreamStringArr|
          invariant |node.outputStreams| == j
          invariant forall k :: 0 <= k < j ==>
                      node.outputStreams[k] == OutputStream(outputStreamStringArr[k], streamFields.value)
        {
          node.outputStreams := node.outputStreams + [OutputStream(outputStreamStringArr[j], streamFields.value)];
          j := j + 1;
        }
      }
      node.parallelism := Some(parallelism);
      node.description := description;
      node.name := name;
      r := Ok(node);
    }

    /** The part of handleSave that fills the rule node in place. */
    method WriteRule(rule: RuleNode, toMs: (InputValue, string) -> int)
      requires windowsNode != null
      modifies this`outputStreamStringArr
      modifies rule`projections, rule`outputStreams, rule`streams, rule`groupbykeys, rule`window
      ensures outputStreamStringArr == OutputStreamNames(windowsNode.id)
      ensures rule.projections == SavedProjections(outputFieldsArr, groupByKeys)
      ensures rule.outputStreams == outputStreamStringArr
      ensures rule.streams == [if |streamIdList| > 0 then Some(streamIdList[0]) else None]
      ensures rule.groupbykeys == groupByKeys
      ensures rule.window == Some(BuildWindow(WindowInputs(), toMs))
    {
      var merged := CollectProjections(outputFieldsArr, groupByKeys);
      rule.projections := merged;
      outputStreamStringArr := OutputStreamNames(windowsNode.id);
      rule.outputStreams := outputStreamStringArr;
      rule.streams := [if |streamIdList| > 0 then Some(streamIdList[0]) else None];
      rule.groupbykeys := groupByKeys;
      rule.window := Some(BuildWindow(WindowInputs(), toMs));
    }

    /** handleSave: with a rule id, the rule node gets the projections (rows
        then group keys), the two output stream names of the processor, the
        first input stream, the group keys and a fresh window object; then
        the processor node is updated and the edge is looked up. */
    method HandleSave(name: string, description: string, toMs: (InputValue, string) -> int,
                      keyList: (seq<string>, seq<Field>) -> Option<Field>,
                      currentEdges: seq<Edge>, inputStreamOptions: seq<StreamOption>)
      returns (outcome: SaveOutcome)
      requires Valid()
      modifies this`outputStreamStringArr
      modifies (if windowsNode != null then {windowsNode} else {})`outputStreams,
               (if windowsNode != null then {windowsNode} else {})`parallelism,
               (if windowsNode != null then {windowsNode} else {})`description,
               (if windowsNode != null then {windowsNode} else {})`name
      modifies (if windowRulesNode != null then {windowRulesNode} else {})`projections,
               (if windowRulesNode != null then {windowRulesNode} else {})`outputStreams,
               (if windowRulesNode != null then {windowRulesNode} else {})`streams,
               (if windowRulesNode != null then {windowRulesNode} else {})`groupbykeys,
               (if windowRulesNode != null then {windowRulesNode} else {})`window
      ensures !Assigned(windowsRuleId) ==> outcome == NotSaved && unchanged(this)
      ensures Assigned(windowsRuleId) && windowRulesNode == null ==> outcome.SaveThrew? && unchanged(this)
      ensures Assigned(windowsRuleId) && windowRulesNode != null ==>
                && outputStreamStringArr == OutputStreamNames(windowsNode.id)
                && windowRulesNode.projections == SavedProjections(outputFieldsArr, groupByKeys)
                && windowRulesNode.outputStreams == outputStreamStringArr
                && windowRulesNode.streams == [if |streamIdList| > 0 then Some(streamIdList[0]) else None]
                && windowRulesNode.groupbykeys == groupByKeys
                && windowRulesNode.window == Some(BuildWindow(WindowInputs(), toMs))
      ensures Assigned(windowsRuleId) && windowRulesNode != null ==>
                var schema := GenerateOutputFields(windowSelectedKeys + outputStreamFields,
                                                   Catalogs(functionListArr, keysList, keyList));
                var edge := UpdateEdges(groupByKeys, currentEdges, inputStreamOptions);
                && (schema.TypeError? ==> outcome.SaveThrew? && unchanged(windowsNode))
                && (schema.Ok? ==>
                      && windowsNode.outputStreams
                         == StreamsAfterUpdate(old(windowsNode.outputStreams), outputStreamStringArr, schema.value)
                      && windowsNode.parallelism == Some(parallelism)
                      && windowsNode.description == description && windowsNode.name == name
                      && (edge.TypeError? ==> outcome.EdgeLookupFailed?)
                      && (edge.Ok? ==> outcome == Submitted(edge.value)))
    {
      if !Assigned(windowsRuleId) {
        return NotSaved;
      }
      var rule := windowRulesNode;
      if rule == null {
        return SaveThrew("Cannot set property 'projections' of undefined");
      }
      WriteRule(rule, toMs);
      var node := UpdateProcessorNode(name, description, keyList);
      if node.TypeError? {
        return SaveThrew(node.reason);
      }
      var edge := UpdateEdges(rule.groupbykeys, currentEdges, inputStreamOptions);
      if edge.TypeError? {
        return EdgeLookupFailed(edge.reason);
      }
      outcome := Submitted(edge.value);
    }
  }

  /** Loading what a save stored gives back the rows, pre-filled, hands the
      saved group keys to the key helpers, and restores the window class,
      the window number and the sliding number, for rows whose condition and
      name are trimmed and free of `AS`, keys free of `AS`, and unit
      conversions that undo each other on the values saved. */
  lemma LoadAfterSave(rows: seq<Row>, groupByKeys: seq<string>, f: WindowForm, prior: WindowForm,
                      toMs: (InputValue, string) -> int, fromMs: Option<int> -> Amount,
                      streams: seq<Option<string>>, keysList: seq<Field>, functions: seq<Udf>, hints: seq<Field>,
                      helpers: KeyHelpers, infer: Infer, keyList: (seq<string>, seq<Field>) -> Option<Field>)
    requires forall i :: 0 <= i < |rows| ==> Clean(rows[i].conditions) && Clean(rows[i].outputFieldName)
    requires forall j :: 0 <= j < |groupByKeys| ==> !Includes(groupByKeys[j], Separator)
    requires f.intervalType == Duration || f.intervalType == Count
    requires f.intervalType == Duration ==> Inverse(toMs, fromMs, f.windowNum, f.durationType)
    requires f.intervalType == Duration && f.slidingNum != Text("") ==>
               Inverse(toMs, fromMs, f.slidingNum, f.slidingDurationType)
    ensures var load := LoadRule(SavedProjections(rows, groupByKeys), streams, Some(BuildWindow(f, toMs)), prior,
                                 keysList, functions, hints, helpers, infer, keyList, fromMs);
            load.Ok? ==>
              && load.value.rows == Prefetched(rows)
              && load.value.keyData == helpers.hierarchy(helpers.normalize(KeyProjections(groupByKeys), keysList), keysList)
              && load.value.window.intervalType == f.intervalType
              && load.value.window.windowNum == f.windowNum
              && (f.slidingNum != Text("") ==> load.value.window.slidingNum == f.slidingNum)
  {
    ProjectionsRoundTrip(rows, groupByKeys);
    WindowRoundTrip(f, prior, toMs, fromMs);
  }
}
