/** validateData: the check the form runs before a save. It refuses at once
    on an argument error, an empty window number or a non-empty error
    string; otherwise it checks that every row is either blank or complete
    and combines the results of the script validator workers, one per row,
    into the `scriptErrors` it shows. The workers themselves are not part of
    this model: their results are an input, in row order. */
module Validation {
  import opened Wrappers
  import opened JsString
  import opened Projections
  import opened WindowSpec

  /** What a validator worker resolves to. */
  datatype WorkerResult = WorkerResult(payload: string, err: Option<string>)

  /** How a call of validateData ends: `false` returned at once, an
      exception, or a promise resolving to `valid` after `scriptErrors` was
      set. */
  datatype Outcome = Refused | Threw(reason: string) | Resolved(valid: bool, scriptErrors: seq<Option<string>>)

  const ParentMandatory: string := "Only arguments are not allowed!  parent function is mandatory"

  /** A row is blank (no condition and no name) or complete (both). */
  predicate Complete(row: Row) {
    (|row.conditions| == 0 && |row.outputFieldName| == 0) || (|row.conditions| > 0 && |row.outputFieldName| > 0)
  }

  /** An event-time window without a lag: `validData` becomes `false`. */
  predicate LagMissing(tsField: string, lagMs: InputValue) {
    EventTime(tsField) && lagMs == Text("")
  }

  /** A JavaScript truthy error entry. */
  predicate Reported(e: Option<string>) {
    e.Some? && e.value != ""
  }

  /** The error entry of one worker result: a script without a `(` is only
      arguments, so it gets the parent-function error whatever the worker
      said. */
  function ScriptError(r: WorkerResult): (e: Option<string>)
    ensures !Includes(r.payload, "(") ==> e == Some(ParentMandatory)
    ensures Includes(r.payload, "(") ==> e == r.err
  {
    if !Includes(r.payload, "(") then Some(ParentMandatory) else r.err
  }

  function ScriptErrors(results: seq<WorkerResult>): (errs: seq<Option<string>>)
    ensures |errs| == |results|
    ensures forall i :: 0 <= i < |results| ==> errs[i] == ScriptError(results[i])
  {
    seq(|results|, i requires 0 <= i < |results| => ScriptError(results[i]))
  }

  /** validateData, as a function of the state it reads and of the worker
      results (`Promise.all` yields one per row, in row order). */
  function Validate(argumentError: bool, windowNum: InputValue, errorString: Option<string>,
                    tsField: string, lagMs: InputValue, rows: seq<Row>, results: seq<WorkerResult>): Outcome
    requires |results| == |rows|
  {
    if argumentError || windowNum == Text("") then Refused
    else if errorString.None? then Threw("Cannot read property 'length' of undefined")
    else if |errorString.value| > 0 then Refused
    else if LagMissing(tsField, lagMs) && exists i :: 0 <= i < |rows| && !Complete(rows[i])
    then Threw("validData.push is not a function")
    else
      var errs := ScriptErrors(results);
      var valid := !LagMissing(tsField, lagMs)
                   && (forall i :: 0 <= i < |rows| ==> Complete(rows[i]))
                   && (forall i :: 0 <= i < |errs| ==> !Reported(errs[i]));
      Resolved(valid, if valid then [] else errs)
  }

  /** Fail fast: an argument error, an empty window number or a non-empty
      error string return `false` before any worker starts; with none of
      those, an error string that was never set makes `.length` throw. */
  lemma ValidateFailFast(argumentError: bool, windowNum: InputValue, errorString: Option<string>,
                         tsField: string, lagMs: InputValue, rows: seq<Row>, results: seq<WorkerResult>)
    requires |results| == |rows|
    ensures argumentError || windowNum == Text("") || (errorString.Some? && errorString.value != "")
            ==> Validate(argumentError, windowNum, errorString, tsField, lagMs, rows, results) == Refused
    ensures !argumentError && windowNum != Text("") && errorString.None?
            ==> Validate(argumentError, windowNum, errorString, tsField, lagMs, rows, results).Threw?
    ensures Validate(argumentError, windowNum, errorString, tsField, lagMs, rows, results) == Refused
            ==> argumentError || windowNum == Text("") || (errorString.Some? && errorString.value != "")
  {
  }

  /** validateData resolves to true exactly when nothing refuses it, the
      timestamp has its lag, every row is blank or complete, and every worker
      accepted a script that calls a function; `scriptErrors` is then
      cleared. A resolution to false reports as in OneErrorPerRow. */
  lemma {:induction false} ValidIff(argumentError: bool, windowNum: InputValue, errorString: Option<string>,
                                    tsField: string, lagMs: InputValue, rows: seq<Row>, results: seq<WorkerResult>)
    requires |results| == |rows|
    ensures Validate(argumentError, windowNum, errorString, tsField, lagMs, rows, results) == Resolved(true, [])
            <==> && !argumentError && windowNum != Text("") && errorString == Some("")
                 && !LagMissing(tsField, lagMs)
                 && (forall i :: 0 <= i < |rows| ==> Complete(rows[i]))
                 && (forall i :: 0 <= i < |results| ==> Includes(results[i].payload, "(") && !Reported(results[i].err))
  {
    var errs := ScriptErrors(results);
    if forall i :: 0 <= i < |results| ==> Includes(results[i].payload, "(") && !Reported(results[i].err) {
      assert forall i :: 0 <= i < |errs| ==> !Reported(errs[i]);
    }
    if forall i :: 0 <= i < |errs| ==> !Reported(errs[i]) {
      forall i | 0 <= i < |results| ensures Includes(results[i].payload, "(") && !Reported(results[i].err) {
        assert !Reported(errs[i]);
      }
    }
  }

  /** A rejected save reports one entry per row: the parent-function error
      for a script without `(`, the worker's own error otherwise. */
  lemma OneErrorPerRow(argumentError: bool, windowNum: InputValue, errorString: Option<string>,
                       tsField: string, lagMs: InputValue, rows: seq<Row>, results: seq<WorkerResult>)
    requires |results| == |rows|
    requires Validate(argumentError, windowNum, errorString, tsField, lagMs, rows, results).Resolved?
    requires !Validate(argumentError, windowNum, errorString, tsField, lagMs, rows, results).valid
    ensures var errs := Validate(argumentError, windowNum, errorString, tsField, lagMs, rows, results).scriptErrors;
            && |errs| == |rows|
            && (forall i :: 0 <= i < |rows| && !Includes(results[i].payload, "(") ==> errs[i] == Some(ParentMandatory))
            && (forall i :: 0 <= i < |rows| && Includes(results[i].payload, "(") ==> errs[i] == results[i].err)
  {
  }

  /** An event-time window without a lag never validates: with a half-filled
      row the `push` onto `false` throws, and otherwise `false.length === 0`
      fails. */
  lemma LagMissingNeverValid(argumentError: bool, windowNum: InputValue, errorString: Option<string>,
                             tsField: string, lagMs: InputValue, rows: seq<Row>, results: seq<WorkerResult>)
    requires |results| == |rows|
    requires LagMissing(tsField, lagMs)
    ensures Validate(argumentError, windowNum, errorString, tsField, lagMs, rows, results) != Resolved(true, [])
    ensures !argumentError && windowNum != Text("") && errorString == Some("") ==>
              ((exists i :: 0 <= i < |rows| && !Complete(rows[i]))
               <==> Validate(argumentError, windowNum, errorString, tsField, lagMs, rows, results).Threw?)
  {
  }

  /** A blank row never validates when its worker echoes the trimmed script:
      the empty script has no `(`, so the row gets the parent-function error. */
  lemma BlankRowGetsParentError(argumentError: bool, windowNum: InputValue, errorString: Option<string>,
                                tsField: string, lagMs: InputValue, rows: seq<Row>, results: seq<WorkerResult>,
                                i: nat)
    requires |results| == |rows| && i < |rows|
    requires rows[i].conditions == "" && rows[i].outputFieldName == ""
    requires results[i].payload == Trim(rows[i].conditions)
    requires Validate(argumentError, windowNum, errorString, tsField, lagMs, rows, results).Resolved?
    ensures Validate(argumentError, windowNum, errorString, tsField, lagMs, rows, results)
            .scriptErrors[i] == Some(ParentMandatory)
  {
    assert Trim("") == "";
    assert !Includes("", "(") by { assert !OccursAt("", "(", 0); }
    assert ScriptErrors(results)[i] == Some(ParentMandatory);
  }
}
