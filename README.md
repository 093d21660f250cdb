# Windowing aggregate processor form, modelled in Dafny

This project models the form that configures a windowing aggregate processor in
the Streamline topology editor (`WindowingAggregateNodeForm.jsx`). The form
holds a list of aggregate rows (`conditions AS outputFieldName`), a set of
group-by keys, and the window inputs: kind, length, sliding interval, unit,
timestamp field and lag. On save it writes a rule node (its `projections`,
`groupbykeys`, `window`, `streams` and `outputStreams`). It also updates the
processor node's output streams and computes the `FIELDS` grouping of the
incoming edge. On load it reads a stored rule back into the form.

The component is a class, `Form.WindowingAggregateNodeForm`. Its fields are the
React state (`outputFieldsArr`, `outputStreamFields`, `windowSelectedKeys`,
`_groupByKeys` as `groupByKeys`, the window inputs, `argumentError`,
`errorString`, `scriptErrors`, ...) and the instance fields (`windowsNode`,
`windowsRuleId`, `windowRulesNode`, `tempStreamContextData`, `streamIdList`,
...). `setState` applies at once. The parent form's `outputStreamObj` is the
field `parentOutputStream`. Each handler is a method whose contract gives the
new state. The pure parts are functions over datatypes, with lemmas about them:
- the projection parser and serialiser (`Projections`);
- the window object (`WindowSpec`);
- the output schema builder and the key catalog (`Schema`);
- validateData (`Validation`);
- the processor, rule and edge objects (`Topology`).

JavaScript semantics are written out where the code depends on them:
- `includes`, `split`, `trim`, a global `replace` and number-to-string concatenation (`JsString`);
- `splice` and assignment past the end of an array, which pads with `undefined` (`JsArray`);
- truthiness of rule ids, error strings and parallelism;
- every exception the code can raise on the paths modelled. Each one is a
  constructor of a result type (`Result.TypeError`, `Outcome.Threw`,
  `SaveOutcome.SaveThrew`, ...).

The file path `WindowingAggregateNodeForm.jsx` below abbreviates
`webservice/src/main/resources/app/scripts/containers/Streams/TopologyEditor/WindowingAggregateNodeForm.jsx`.
The table uses the full path.

Some behaviour of the code is worth stating outright, because the model keeps it as written:
- handleSave stores the rows first and the group keys after them.
- Only fields of type `LONG` are offered as timestamps.
- The stored window class is `.Window$Duration` or `.Window$Count`.
- The lag is written as milliseconds of a number of seconds. It is read back in
  the unit `millisecondsToNumber` picks, so it is not always shown in seconds.
- validateData refuses to save with a missing lag only because `false.push` throws
  or `false.length === 0` fails. There is no explicit check.

## Model

| member | source | states |
|---|---|---|
| JsString.Split | webservice/src/main/resources/app/scripts/containers/Streams/TopologyEditor/WindowingAggregateNodeForm.jsx:322 | `split('AS')` gives one piece exactly when the separator does not occur, and otherwise at least two, the first being the text before the first occurrence; no piece contains the separator |
| JsString.JoinSplit | webservice/src/main/resources/app/scripts/containers/Streams/TopologyEditor/WindowingAggregateNodeForm.jsx:322 | joining the pieces of a split with the separator gives back the string |
| JsString.Trim | webservice/src/main/resources/app/scripts/containers/Streams/TopologyEditor/WindowingAggregateNodeForm.jsx:324-325 | `trim()` yields the input with its leading and trailing white space removed: a slice of the input, all white space outside it, and no white space at either end |
| JsString.TrimAroundTrimmed | webservice/src/main/resources/app/scripts/containers/Streams/TopologyEditor/WindowingAggregateNodeForm.jsx:324-325 | trimming leaves a trimmed string alone and removes one added space at either end |
| JsString.DecimalString | webservice/src/main/resources/app/scripts/containers/Streams/TopologyEditor/WindowingAggregateNodeForm.jsx:498-501 | the node id is written as a non-empty string of decimal digits |
| JsArray.SpliceOne | webservice/src/main/resources/app/scripts/containers/Streams/TopologyEditor/WindowingAggregateNodeForm.jsx:735-736 | `splice(index, 1)` removes one element when the clamped start is inside the array and none otherwise |
| JsArray.SpliceOneInside | webservice/src/main/resources/app/scripts/containers/Streams/TopologyEditor/WindowingAggregateNodeForm.jsx:735-736 | an in-range splice removes exactly element `index`, keeps the order of the others and removes one copy from the multiset |
| JsArray.SpliceOnePastEnd | webservice/src/main/resources/app/scripts/containers/Streams/TopologyEditor/WindowingAggregateNodeForm.jsx:735-736 | a splice at or past the end leaves the array as it was |
| JsArray.AssignAt | webservice/src/main/resources/app/scripts/containers/Streams/TopologyEditor/WindowingAggregateNodeForm.jsx:677-680 | `a[index] = v` sets slot `index`, keeps every other existing slot, and pads a short array with `undefined` slots |
| Projections.ReadRow | webservice/src/main/resources/app/scripts/containers/Streams/TopologyEditor/WindowingAggregateNodeForm.jsx:321-327 | an entry containing `AS` becomes a pre-filled row whose condition and name are trimmed |
| Projections.ParseProjections | webservice/src/main/resources/app/scripts/containers/Streams/TopologyEditor/WindowingAggregateNodeForm.jsx:318-333 | every entry lands in exactly one of the two lists; rows are pre-filled; bare entries contain no `AS` |
| Projections.ComputedAppend | webservice/src/main/resources/app/scripts/containers/Streams/TopologyEditor/WindowingAggregateNodeForm.jsx:320-330 | the entries read as rows, taken from a concatenation, are those of the first part followed by those of the second |
| Projections.BareAppend | webservice/src/main/resources/app/scripts/containers/Streams/TopologyEditor/WindowingAggregateNodeForm.jsx:328-330 | likewise for the bare entries |
| Projections.ParseAppend | webservice/src/main/resources/app/scripts/containers/Streams/TopologyEditor/WindowingAggregateNodeForm.jsx:318-333 | parsing works entry by entry, so both output lists keep the input order |
| Projections.ParseOne | webservice/src/main/resources/app/scripts/containers/Streams/TopologyEditor/WindowingAggregateNodeForm.jsx:321-330 | a single entry gives one row when it contains `AS` and one bare entry otherwise |
| Projections.SavedProjectionsAt | webservice/src/main/resources/app/scripts/containers/Streams/TopologyEditor/WindowingAggregateNodeForm.jsx:489-495 | the entry saved for row `i` is `cond AS name` at index `i`; the entry for group key `j` sits after all rows |
| Projections.CollectProjections | webservice/src/main/resources/app/scripts/containers/Streams/TopologyEditor/WindowingAggregateNodeForm.jsx:489-495 | the two loops of handleSave build exactly the rows' entries followed by the keys' entries |
| Projections.Prefetched | webservice/src/main/resources/app/scripts/containers/Streams/TopologyEditor/WindowingAggregateNodeForm.jsx:740-741 | every row is kept, with `prefetchData` set |
| Projections.RowRoundTrip | webservice/src/main/resources/app/scripts/containers/Streams/TopologyEditor/WindowingAggregateNodeForm.jsx:321-327 | a saved row whose condition and name are trimmed and free of `AS` reads back as the same row |
| Projections.RowsRoundTrip | webservice/src/main/resources/app/scripts/containers/Streams/TopologyEditor/WindowingAggregateNodeForm.jsx:318-333 | saved rows read back as the same rows, pre-filled, with no bare entries |
| Projections.KeysRoundTrip | webservice/src/main/resources/app/scripts/containers/Streams/TopologyEditor/WindowingAggregateNodeForm.jsx:318-333 | saved group keys free of `AS` read back as the same bare entries and no rows |
| Projections.ProjectionsRoundTrip | webservice/src/main/resources/app/scripts/containers/Streams/TopologyEditor/WindowingAggregateNodeForm.jsx:489-495 | what handleSave stores, the loader splits back into the same rows and the same group-key entries |
| Projections.AsInsideConditionIsMisread | webservice/src/main/resources/app/scripts/containers/Streams/TopologyEditor/WindowingAggregateNodeForm.jsx:321-325 | the `AS` test is case-sensitive and matches inside words: `LAST(x) AS total` reads back as condition `L`, name `T(x)` |
| Projections.AsInsideKeyIsMisread | webservice/src/main/resources/app/scripts/containers/Streams/TopologyEditor/WindowingAggregateNodeForm.jsx:321-330 | a group key `BASE` reads back as a row, not as a key |
| WindowSpec.SavedInterval | webservice/src/main/resources/app/scripts/containers/Streams/TopologyEditor/WindowingAggregateNodeForm.jsx:505-527 | a Duration interval carries only `durationMs` (the converted number), a Count interval only `count`, any other class neither |
| WindowSpec.BuildWindow | webservice/src/main/resources/app/scripts/containers/Streams/TopologyEditor/WindowingAggregateNodeForm.jsx:505-531 | the sliding interval is present exactly for a Duration or Count window with a non-empty sliding number; `tsField` and `lagMs` are present exactly for an event-time field, the lag converted as seconds |
| WindowSpec.HydrateWindow | webservice/src/main/resources/app/scripts/containers/Streams/TopologyEditor/WindowingAggregateNodeForm.jsx:285-307 | each input the load sets, for Duration, Count and other classes, and what it leaves as it was; a missing or empty `tsField` becomes `processingTime` |
| WindowSpec.WindowRoundTrip | webservice/src/main/resources/app/scripts/containers/Streams/TopologyEditor/WindowingAggregateNodeForm.jsx:285-300 | save then load restores the window class, number and unit, and the sliding number and unit when one was saved, given inverse unit conversions |
| WindowSpec.TsFieldRoundTrip | webservice/src/main/resources/app/scripts/containers/Streams/TopologyEditor/WindowingAggregateNodeForm.jsx:302-307 | a saved event-time field comes back; a processing-time or empty selection comes back as `processingTime` |
| WindowSpec.SaveLoadSaveStable | webservice/src/main/resources/app/scripts/containers/Streams/TopologyEditor/WindowingAggregateNodeForm.jsx:505-531 | a loaded form saves the same window length, sliding interval and timestamp field again |
| Schema.FindUdf | webservice/src/main/resources/app/scripts/containers/Streams/TopologyEditor/WindowingAggregateNodeForm.jsx:631-633 | `find` returns the first catalog entry with that name, and none exactly when no entry has it |
| Schema.GetReturnType | webservice/src/main/resources/app/scripts/containers/Streams/TopologyEditor/WindowingAggregateNodeForm.jsx:630-643 | the four outcomes: unknown function gives the field's type or `DOUBLE`; a known one gives `undefined` without arg types or field, else its return type or the field's type |
| Schema.ReturnTypeFirstEntryWins | webservice/src/main/resources/app/scripts/containers/Streams/TopologyEditor/WindowingAggregateNodeForm.jsx:631-633 | catalog entries after the first match never change the result |
| Schema.GenerateField | webservice/src/main/resources/app/scripts/containers/Streams/TopologyEditor/WindowingAggregateNodeForm.jsx:552-562 | an entry fails exactly when it is an `undefined` slot or a nested one fails; its name is `name` or `outputFieldName`, its type its own or the looked-up one; nested fields appear exactly for NESTED entries with children, and are those children's own output schema |
| Schema.GenerateOutputFields | webservice/src/main/resources/app/scripts/containers/Streams/TopologyEditor/WindowingAggregateNodeForm.jsx:550-564 | the schema exists exactly when no reachable slot is `undefined`; it has one field per entry, each built from that entry |
| Schema.GenerateAppend | webservice/src/main/resources/app/scripts/containers/Streams/TopologyEditor/WindowingAggregateNodeForm.jsx:413-414 | the schema of keys followed by outputs is the keys' schema followed by the outputs' |
| Schema.UnionByNameKeys | webservice/src/main/resources/app/scripts/containers/Streams/TopologyEditor/WindowingAggregateNodeForm.jsx:180-181 | `_.unionBy(fields, 'name')` keeps every name of its input |
| Schema.UnionByNameUnique | webservice/src/main/resources/app/scripts/containers/Streams/TopologyEditor/WindowingAggregateNodeForm.jsx:180-181 | each name occurs once in the union, and only input fields occur in it |
| Schema.UnionKeepsFirst | webservice/src/main/resources/app/scripts/containers/Streams/TopologyEditor/WindowingAggregateNodeForm.jsx:180-181 | the field kept for a name is its first occurrence |
| Schema.UnionByNameOrder | webservice/src/main/resources/app/scripts/containers/Streams/TopologyEditor/WindowingAggregateNodeForm.jsx:180-181 | the union keeps the fields in the order of their names' first occurrences, and the field kept for a name is its first occurrence |
| Schema.LongFields | webservice/src/main/resources/app/scripts/containers/Streams/TopologyEditor/WindowingAggregateNodeForm.jsx:182 | the filter keeps exactly the LONG fields |
| Schema.LongFieldsAppend | webservice/src/main/resources/app/scripts/containers/Streams/TopologyEditor/WindowingAggregateNodeForm.jsx:182 | the filter works field by field, so the LONG fields keep their order and their multiplicity |
| Schema.LongFieldsOne | webservice/src/main/resources/app/scripts/containers/Streams/TopologyEditor/WindowingAggregateNodeForm.jsx:182 | a single field is kept exactly when it is LONG |
| Schema.TsFieldOptions | webservice/src/main/resources/app/scripts/containers/Streams/TopologyEditor/WindowingAggregateNodeForm.jsx:182-184 | the options are the LONG fields in order, then the processing-time option |
| Schema.TsFieldChoice | webservice/src/main/resources/app/scripts/containers/Streams/TopologyEditor/WindowingAggregateNodeForm.jsx:182-184 | a field is offered as timestamp exactly when it is a LONG field of the catalog |
| Validation.ScriptError | webservice/src/main/resources/app/scripts/containers/Streams/TopologyEditor/WindowingAggregateNodeForm.jsx:387-391 | a payload without `(` gets the parent-function error; otherwise the worker's error stands |
| Validation.ScriptErrors | webservice/src/main/resources/app/scripts/containers/Streams/TopologyEditor/WindowingAggregateNodeForm.jsx:386-392 | one error entry per worker result, in order |
| Validation.ValidateFailFast | webservice/src/main/resources/app/scripts/containers/Streams/TopologyEditor/WindowingAggregateNodeForm.jsx:370-372 | an argument error, an empty window number or a non-empty error string refuse at once, and nothing else does; an error string never set makes `.length` throw |
| Validation.ValidIff | webservice/src/main/resources/app/scripts/containers/Streams/TopologyEditor/WindowingAggregateNodeForm.jsx:367-400 | validation resolves to true (and clears `scriptErrors`) exactly when nothing refuses, the lag is there, every row is blank or complete, and every script calls a function without a worker error |
| Validation.OneErrorPerRow | webservice/src/main/resources/app/scripts/containers/Streams/TopologyEditor/WindowingAggregateNodeForm.jsx:386-398 | a resolution to false reports one entry per row, the parent-function error or the worker's |
| Validation.LagMissingNeverValid | webservice/src/main/resources/app/scripts/containers/Streams/TopologyEditor/WindowingAggregateNodeForm.jsx:373-383 | an event-time window without lag never validates; it throws exactly when some row is half filled |
| Validation.BlankRowGetsParentError | webservice/src/main/resources/app/scripts/containers/Streams/TopologyEditor/WindowingAggregateNodeForm.jsx:376-390 | a blank row's empty script has no `(`, so it always gets the parent-function error |
| Topology.OutputStreamNames | webservice/src/main/resources/app/scripts/containers/Streams/TopologyEditor/WindowingAggregateNodeForm.jsx:498-501 | two distinct stream names per processor |
| Topology.OutputStreamNamesInjective | webservice/src/main/resources/app/scripts/containers/Streams/TopologyEditor/WindowingAggregateNodeForm.jsx:498-501 | distinct processors get distinct stream names |
| Topology.DecimalStringInjective | webservice/src/main/resources/app/scripts/containers/Streams/TopologyEditor/WindowingAggregateNodeForm.jsx:498-501 | distinct ids have distinct decimal forms |
| Topology.StreamsAfterUpdate | webservice/src/main/resources/app/scripts/containers/Streams/TopologyEditor/WindowingAggregateNodeForm.jsx:416-426 | existing output streams keep their ids and all get the new fields; a node without streams gets one per stored name |
| Topology.StreamsAfterUpdateIdempotent | webservice/src/main/resources/app/scripts/containers/Streams/TopologyEditor/WindowingAggregateNodeForm.jsx:416-426 | updating twice with the same fields equals updating once |
| Topology.FindEdge | webservice/src/main/resources/app/scripts/containers/Streams/TopologyEditor/WindowingAggregateNodeForm.jsx:446-448 | the first edge carrying the stream, and none exactly when no edge does |
| Topology.UpdateEdges | webservice/src/main/resources/app/scripts/containers/Streams/TopologyEditor/WindowingAggregateNodeForm.jsx:438-461 | succeeds exactly when there is an input stream option and an edge carrying it; the body has that edge's ends and stream, `FIELDS` grouping and one dotted path per group key |
| Topology.NormalizePlain | webservice/src/main/resources/app/scripts/containers/Streams/TopologyEditor/WindowingAggregateNodeForm.jsx:442-444 | a key without brackets or quotes is left as it is |
| Topology.NormalizeBracket | webservice/src/main/resources/app/scripts/containers/Streams/TopologyEditor/WindowingAggregateNodeForm.jsx:442-444 | `a['b']` becomes `a.b` |
| Form.BlankIndex | webservice/src/main/resources/app/scripts/containers/Streams/TopologyEditor/WindowingAggregateNodeForm.jsx:682 | `_.findIndex` returns the first row with empty condition and name, and none exactly when there is no such row |
| Form.PublishedWithoutBlank | webservice/src/main/resources/app/scripts/containers/Streams/TopologyEditor/WindowingAggregateNodeForm.jsx:677-685 | without a blank row, entry `index` gets the row's name and type and every other entry is kept |
| Form.PublishedDropsBlankSlot | webservice/src/main/resources/app/scripts/containers/Streams/TopologyEditor/WindowingAggregateNodeForm.jsx:682-685 | the slot of the first blank row is removed and the rest keep their order |
| Form.TwoBlankRowsLeaveHole | webservice/src/main/resources/app/scripts/containers/Streams/TopologyEditor/WindowingAggregateNodeForm.jsx:677-685 | with two blank rows before the edited one, an `undefined` slot stays among the published entries |
| Form.HoleBreaksOutputSchema | webservice/src/main/resources/app/scripts/containers/Streams/TopologyEditor/WindowingAggregateNodeForm.jsx:552-555 | an `undefined` entry makes the output schema throw, so the next save throws |
| Form.StreamIds | webservice/src/main/resources/app/scripts/containers/Streams/TopologyEditor/WindowingAggregateNodeForm.jsx:175-178 | one stream id per input stream |
| Form.CollectInputStreams | webservice/src/main/resources/app/scripts/containers/Streams/TopologyEditor/WindowingAggregateNodeForm.jsx:175-178 | the loop appends every stream id and concatenates every stream's fields |
| Form.InferredEntries | webservice/src/main/resources/app/scripts/containers/Streams/TopologyEditor/WindowingAggregateNodeForm.jsx:261-268 | one `{name, type}` entry per loaded row, typed from its condition |
| Form.LoadRule | webservice/src/main/resources/app/scripts/containers/Streams/TopologyEditor/WindowingAggregateNodeForm.jsx:248-307 | loading succeeds exactly when the output schema has no `undefined` slot and the rule has a window |
| Form.LoadAfterSave | webservice/src/main/resources/app/scripts/containers/Streams/TopologyEditor/WindowingAggregateNodeForm.jsx:248-316 | loading a saved rule gives back the rows (pre-filled), the saved keys and the window class and numbers |
| Form.MarkPrefetched | webservice/src/main/resources/app/scripts/containers/Streams/TopologyEditor/WindowingAggregateNodeForm.jsx:740-743 | the loop marks every remaining row pre-filled |
| Form.WindowingAggregateNodeForm.constructor | webservice/src/main/resources/app/scripts/containers/Streams/TopologyEditor/WindowingAggregateNodeForm.jsx:46-104 | the initial state: one blank row, Duration in seconds, empty numbers, no `errorString` |
| Form.WindowingAggregateNodeForm.HandleValueChange | webservice/src/main/resources/app/scripts/containers/Streams/TopologyEditor/WindowingAggregateNodeForm.jsx:698-709 | the input takes the absolute value; the window number also sets the sliding number; other inputs are untouched |
| Form.WindowingAggregateNodeForm.CommonHandlerChange | webservice/src/main/resources/app/scripts/containers/Streams/TopologyEditor/WindowingAggregateNodeForm.jsx:596-605 | a cleared selection changes nothing; the trimmed key picks which inputs change |
| Form.WindowingAggregateNodeForm.HandleTimestampFieldChange | webservice/src/main/resources/app/scripts/containers/Streams/TopologyEditor/WindowingAggregateNodeForm.jsx:611-617 | a selection sets the field; clearing empties field and lag |
| Form.WindowingAggregateNodeForm.HandleKeysChange | webservice/src/main/resources/app/scripts/containers/Streams/TopologyEditor/WindowingAggregateNodeForm.jsx:573-581 | keys, group keys and key hierarchy are set; the parent sees the hierarchy followed by the output entries |
| Form.WindowingAggregateNodeForm.AddOutputFields | webservice/src/main/resources/app/scripts/containers/Streams/TopologyEditor/WindowingAggregateNodeForm.jsx:714-724 | in edit mode one blank row is appended; otherwise nothing changes |
| Form.WindowingAggregateNodeForm.DeleteFieldRow | webservice/src/main/resources/app/scripts/containers/Streams/TopologyEditor/WindowingAggregateNodeForm.jsx:730-746 | row and entry are spliced out of both arrays, the remaining rows are pre-filled, the parent sees keys then entries |
| Form.WindowingAggregateNodeForm.SetParentContextOutputStream | webservice/src/main/resources/app/scripts/containers/Streams/TopologyEditor/WindowingAggregateNodeForm.jsx:668-692 | the entries become the published entries for the row's inferred type, the inference error is recorded, and the parent sees keys then entries under the first stream |
| Form.WindowingAggregateNodeForm.PublishEntries | webservice/src/main/resources/app/scripts/containers/Streams/TopologyEditor/WindowingAggregateNodeForm.jsx:688-691 | the entries are kept and published after the key hierarchy |
| Form.WindowingAggregateNodeForm.HandleScriptChange | webservice/src/main/resources/app/scripts/containers/Streams/TopologyEditor/WindowingAggregateNodeForm.jsx:754-764 | only the row's condition changes, an empty script flags the input, and the row is republished |
| Form.WindowingAggregateNodeForm.HandleFieldNameChange | webservice/src/main/resources/app/scripts/containers/Streams/TopologyEditor/WindowingAggregateNodeForm.jsx:766-776 | only the row's name changes, an empty name flags the input, and the row is republished |
| Form.WindowingAggregateNodeForm.GetDataFromParentFormContext | webservice/src/main/resources/app/scripts/containers/Streams/TopologyEditor/WindowingAggregateNodeForm.jsx:157-222 | node and rule id taken over; catalog, hints and timestamp options derived from the input streams; parallelism defaults to 1; the configured rule is fetched, or the placeholder rule created |
| Form.WindowingAggregateNodeForm.ReadInputStreams | webservice/src/main/resources/app/scripts/containers/Streams/TopologyEditor/WindowingAggregateNodeForm.jsx:174-185 | the stream ids are appended, the hints are the union by name of all input fields, the catalog and timestamp options follow from them |
| Form.WindowingAggregateNodeForm.AttachCreatedRule | webservice/src/main/resources/app/scripts/containers/Streams/TopologyEditor/WindowingAggregateNodeForm.jsx:209-217 | the created rule is kept, its id becomes the rule id and the processor's rule list |
| Form.WindowingAggregateNodeForm.AttachFetchedRule | webservice/src/main/resources/app/scripts/containers/Streams/TopologyEditor/WindowingAggregateNodeForm.jsx:194-197 | the fetched rule is kept and loaded; a successful load ends the loading state, a failing one leaves rows and window inputs alone |
| Form.WindowingAggregateNodeForm.PopulateOutputStreamsFromServer | webservice/src/main/resources/app/scripts/containers/Streams/TopologyEditor/WindowingAggregateNodeForm.jsx:248-316 | a rule without projections only ends loading; otherwise the state becomes what LoadRule reads, and a throw changes nothing |
| Form.WindowingAggregateNodeForm.ShowLoadedRule | webservice/src/main/resources/app/scripts/containers/Streams/TopologyEditor/WindowingAggregateNodeForm.jsx:310-312 | rows, entries, keys, window inputs and the published stream become those of the loaded rule |
| Form.WindowingAggregateNodeForm.SetWindowInputs | webservice/src/main/resources/app/scripts/containers/Streams/TopologyEditor/WindowingAggregateNodeForm.jsx:311 | the window inputs become the given ones |
| Form.WindowingAggregateNodeForm.ValidateData | webservice/src/main/resources/app/scripts/containers/Streams/TopologyEditor/WindowingAggregateNodeForm.jsx:367-400 | the outcome is Validation.Validate of the state and the worker results; `scriptErrors` changes only when validation resolves |
| Form.WindowingAggregateNodeForm.UpdateProcessorNode | webservice/src/main/resources/app/scripts/containers/Streams/TopologyEditor/WindowingAggregateNodeForm.jsx:410-431 | a schema with an `undefined` slot throws before the node is touched; otherwise its streams become StreamsAfterUpdate and parallelism, description and name are set |
| Form.WindowingAggregateNodeForm.WriteRule | webservice/src/main/resources/app/scripts/containers/Streams/TopologyEditor/WindowingAggregateNodeForm.jsx:489-531 | the rule node gets the saved projections, the two stream names, the first input stream, the group keys and a freshly built window |
| Form.WindowingAggregateNodeForm.HandleSave | webservice/src/main/resources/app/scripts/containers/Streams/TopologyEditor/WindowingAggregateNodeForm.jsx:471-544 | nothing without a rule id; otherwise the rule is written, then the processor update can throw, then the edge lookup can fail, else the edge update is returned |

## Left out

- REST calls (`TopologyREST`, `AggregateUdfREST`) are not modelled. Their effect is the value a method returns: `RuleRequest`, `SaveOutcome.Submitted`, or the node objects updated in place. Responses are the arguments of `AttachCreatedRule` and `AttachFetchedRule`.
- The validator web workers are not modelled. Their results are the input of `ValidateData`, one per row in row order. Starting the workers is not modelled.
- The helpers in `ProcessorUtils` and `Utils` are not part of this model. They are function parameters: `getSchemaFields`, `getKeyList`, `normalizationProjectionKeys`, `getKeysAndGroupKey`, `createSelectedKeysHierarchy`, `getReturnTypeFromCodemirror`, `numberToMilliseconds` and `millisecondsToNumber`.
- Not modelled: render, CodeMirror hint options, DOM scrolling, `refs` editor updates and toast notifications. These are UI only.
- `fetchData`, `componentWillUpdate` and `fetchRulesNode` are not modelled. They are React lifecycle and request plumbing; their decisions appear as `RuleRequest`.
- `handleSelectAllOutputFields` is not modelled. It calls a hidden helper and then `handleKeysChange`, which is modelled.
- `getFunctionDisplayName` and `renderFieldOption` are not modelled. They only produce display text.
- The unused `level` and `outputFlag` parameters are left out.
- Form.WindowingAggregateNodeForm.HandleValueChange: takes the input already converted to an integer. Empty text converts to 0 in the source. Fractional and NaN values are not modelled.
- JsString.IsWhiteSpace: covers the ECMAScript white-space and line-terminator characters by code point. Surrogate pairs are not modelled.
- Missing string keys (`undefined`) and the empty string are the same value `""` for names, types and error strings. Both are falsy wherever the code tests them.
- Aliasing between the objects is not modelled: `tempStreamContextData`, the parent's `outputStreamObj`, the state arrays `addOutputFields` pushes into, and the stream objects `updateProcessorNode` mutates. Each is a separate value, and all of them end up with the same contents.
- Before the context is read, `invalidInput` and `tsFieldOptions` are `false` and `[]`, not `undefined`. Both values are falsy or empty in the same way.
- Form.WindowingAggregateNodeForm.AttachFetchedRule: states only the rule, the loading flag and the untouched rows and window on failure. The full effect is the contract of PopulateOutputStreamsFromServer, which it calls.
- WindowSpec.SaveLoadSaveStable: does not claim the lag. `millisecondsToNumber` may read it back in another unit, and it is then converted as seconds again.
- Form.LoadRule: its contract states only when loading succeeds. What it yields is stated by Form.LoadAfterSave and by PopulateOutputStreamsFromServer's contract.
