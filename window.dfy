/** The rule's `window` object: how handleSave builds it from the form's
    window inputs and how populateOutputStreamsFromServer reads it back
    into those inputs (WindowingAggregateNodeForm.jsx). The unit
    conversions `Utils.numberToMilliseconds` and `Utils.millisecondsToNumber`
    are not part of this model; they are passed in as functions. */
module WindowSpec {
  import opened Wrappers

  /** A value held by one of the form's number inputs: the initial `''`
      (or another string read from a stored rule), a number, or `undefined`. */
  datatype InputValue = Absent | Text(s: string) | Num(n: int)

  const Duration: string := ".Window$Duration"
  const Count: string := ".Window$Count"
  const ProcessingTime: string := "processingTime"

  /** `windowLength` or `slidingInterval`: a class and, depending on it,
      a `durationMs` or a `count` key (`None`/`Absent` when the key is missing). */
  datatype Interval = Interval(windowClass: string, durationMs: Option<int>, count: InputValue)

  /** The stored window; `tsField` and `lagMs` are keys that may be missing. */
  datatype Window = Window(windowLength: Interval, slidingInterval: Option<Interval>,
                           tsField: Option<string>, lagMs: Option<int>)

  /** The form's window inputs. */
  datatype WindowForm = WindowForm(intervalType: string, windowNum: InputValue, slidingNum: InputValue,
                                   durationType: string, slidingDurationType: string,
                                   tsField: string, lagMs: InputValue)

  /** What `millisecondsToNumber` returns: `{number, type}`. */
  datatype Amount = Amount(number: InputValue, unit: string)

  /** The window inputs of a freshly constructed form. */
  const InitialForm: WindowForm := WindowForm(Duration, Text(""), Text(""), "Seconds", "Seconds", "", Text(""))

  /** The timestamp selection names a real field, so the window is event-time. */
  predicate EventTime(tsField: string) {
    tsField != "" && tsField != ProcessingTime
  }

  /** The interval handleSave writes for a class and a number: Duration keeps
      only `durationMs`, Count keeps only `count`, any other class neither. */
  function SavedInterval(windowClass: string, num: InputValue, unit: string,
                         toMs: (InputValue, string) -> int): (iv: Interval)
    ensures iv.windowClass == windowClass
    ensures iv.durationMs.Some? <==> windowClass == Duration
    ensures iv.durationMs.Some? ==> iv.durationMs.value == toMs(num, unit)
    ensures windowClass == Count ==> iv.count == num
    ensures windowClass != Count ==> iv.count == Absent
  {
    if windowClass == Duration then Interval(windowClass, Some(toMs(num, unit)), Absent)
    else if windowClass == Count then Interval(windowClass, None, num)
    else Interval(windowClass, None, Absent)
  }

  /** The window object handleSave builds afresh on every save. The sliding
      interval is written only for a Duration or Count window whose
      `slidingNum` is not `''`; `tsField` and `lagMs` only for an event-time
      window, the lag being converted as seconds. */
  function BuildWindow(f: WindowForm, toMs: (InputValue, string) -> int): (w: Window)
    ensures w.windowLength == SavedInterval(f.intervalType, f.windowNum, f.durationType, toMs)
    ensures w.slidingInterval.Some? <==> (f.intervalType == Duration || f.intervalType == Count) && f.slidingNum != Text("")
    ensures w.slidingInterval.Some? ==>
              w.slidingInterval.value == SavedInterval(f.intervalType, f.slidingNum, f.slidingDurationType, toMs)
    ensures w.tsField.Some? <==> EventTime(f.tsField)
    ensures w.lagMs.Some? <==> EventTime(f.tsField)
    ensures EventTime(f.tsField) ==> w.tsField == Some(f.tsField) && w.lagMs == Some(toMs(f.lagMs, "Seconds"))
  {
    var sliding :=
      if (f.intervalType == Duration || f.intervalType == Count) && f.slidingNum != Text("")
      then Some(SavedInterval(f.intervalType, f.slidingNum, f.slidingDurationType, toMs))
      else None;
    if EventTime(f.tsField)
    then Window(SavedInterval(f.intervalType, f.windowNum, f.durationType, toMs), sliding,
                Some(f.tsField), Some(toMs(f.lagMs, "Seconds")))
    else Window(SavedInterval(f.intervalType, f.windowNum, f.durationType, toMs), sliding, None, None)
  }

  /** A stored `tsField` key is truthy. */
  predicate HasTsField(w: Window) {
    w.tsField.Some? && w.tsField.value != ""
  }

  /** The window hydration of populateOutputStreamsFromServer, applied to the
      inputs as they were. A Duration window sets the number and unit of the
      length and, when present, of the sliding interval; a Count window sets
      the counts; a window of any other class leaves those inputs alone. A
      truthy `tsField` is taken over with its lag; otherwise the selection
      becomes `processingTime` and the lag input is left as it was. */
  function HydrateWindow(w: Window, prior: WindowForm, fromMs: Option<int> -> Amount): (f: WindowForm)
    ensures f.intervalType == (if w.windowLength.windowClass in {Duration, Count} then w.windowLength.windowClass
                               else prior.intervalType)
    ensures w.windowLength.windowClass == Count ==> f.windowNum == w.windowLength.count
    ensures w.windowLength.windowClass == Count && w.slidingInterval.Some? ==> f.slidingNum == w.slidingInterval.value.count
    ensures w.windowLength.windowClass == Duration ==>
              f.windowNum == fromMs(w.windowLength.durationMs).number
              && f.durationType == fromMs(w.windowLength.durationMs).unit
    ensures w.windowLength.windowClass == Duration && w.slidingInterval.Some? ==>
              f.slidingNum == fromMs(w.slidingInterval.value.durationMs).number
              && f.slidingDurationType == fromMs(w.slidingInterval.value.durationMs).unit
    ensures w.slidingInterval.None? ==> f.slidingNum == prior.slidingNum
    ensures w.windowLength.windowClass == Duration && w.slidingInterval.None? ==>
              f.slidingDurationType == prior.slidingDurationType
    ensures w.windowLength.windowClass !in {Duration, Count} ==>
              f.windowNum == prior.windowNum && f.slidingNum == prior.slidingNum
    ensures w.windowLength.windowClass != Duration ==>
              f.durationType == prior.durationType && f.slidingDurationType == prior.slidingDurationType
    ensures f.tsField == (if HasTsField(w) then w.tsField.value else ProcessingTime)
    ensures f.lagMs == (if HasTsField(w) then fromMs(w.lagMs).number else prior.lagMs)
  {
    var len := w.windowLength;
    var f1 :=
      if len.windowClass == Duration then
        var main := fromMs(len.durationMs);
        var f0 := prior.(intervalType := Duration, windowNum := main.number, durationType := main.unit);
        if w.slidingInterval.Some? then
          var slide := fromMs(w.slidingInterval.value.durationMs);
          f0.(slidingNum := slide.number, slidingDurationType := slide.unit)
        else f0
      else if len.windowClass == Count then
        var f0 := prior.(intervalType := Count, windowNum := len.count);
        if w.slidingInterval.Some? then f0.(slidingNum := w.slidingInterval.value.count) else f0
      else prior;
    if HasTsField(w) then f1.(tsField := w.tsField.value, lagMs := fromMs(w.lagMs).number)
    else f1.(tsField := ProcessingTime)
  }

  /** The two hidden conversions undo each other on `(num, unit)`. */
  predicate Inverse(toMs: (InputValue, string) -> int, fromMs: Option<int> -> Amount, num: InputValue, unit: string) {
    fromMs(Some(toMs(num, unit))) == Amount(num, unit)
  }

  /** Saving a form and loading the stored window into any form restores the
      window class, the window number and unit, and the sliding number and
      unit whenever a sliding interval was saved; for Duration windows this
      needs only that the hidden conversions undo each other on the values
      at hand. The lag is not claimed: its reading back depends on the unit
      `millisecondsToNumber` chooses. */
  lemma WindowRoundTrip(f: WindowForm, prior: WindowForm, toMs: (InputValue, string) -> int,
                        fromMs: Option<int> -> Amount)
    requires f.intervalType == Duration || f.intervalType == Count
    requires f.intervalType == Duration ==> Inverse(toMs, fromMs, f.windowNum, f.durationType)
    requires f.intervalType == Duration && f.slidingNum != Text("") ==>
               Inverse(toMs, fromMs, f.slidingNum, f.slidingDurationType)
    ensures var g := HydrateWindow(BuildWindow(f, toMs), prior, fromMs);
            && g.intervalType == f.intervalType
            && g.windowNum == f.windowNum
            && (f.intervalType == Duration ==> g.durationType == f.durationType)
            && (f.slidingNum != Text("") ==> g.slidingNum == f.slidingNum)
            && (f.intervalType == Duration && f.slidingNum != Text("") ==> g.slidingDurationType == f.slidingDurationType)
  {
  }

  /** The timestamp selection survives a save and a load when it names a
      field; a processing-time or empty selection comes back as
      `processingTime`. */
  lemma TsFieldRoundTrip(f: WindowForm, prior: WindowForm, toMs: (InputValue, string) -> int,
                         fromMs: Option<int> -> Amount)
    ensures HydrateWindow(BuildWindow(f, toMs), prior, fromMs).tsField
            == if EventTime(f.tsField) then f.tsField else ProcessingTime
  {
  }

  /** A form that has been saved and loaded once saves the same window
      length, sliding interval and timestamp field again, as long as the
      conversions undo each other: a sliding interval comes back only if one
      was saved, and a load never produces an empty timestamp selection. The
      stored lag is not claimed. */
  lemma SaveLoadSaveStable(f: WindowForm, prior: WindowForm, toMs: (InputValue, string) -> int,
                           fromMs: Option<int> -> Amount)
    requires f.intervalType == Duration || f.intervalType == Count
    requires f.intervalType == Duration ==> Inverse(toMs, fromMs, f.windowNum, f.durationType)
    requires f.intervalType == Duration && f.slidingNum != Text("") ==>
               Inverse(toMs, fromMs, f.slidingNum, f.slidingDurationType)
    requires prior.slidingNum == Text("")
    ensures var w, w' := BuildWindow(f, toMs), BuildWindow(HydrateWindow(BuildWindow(f, toMs), prior, fromMs), toMs);
            w'.windowLength == w.windowLength && w'.slidingInterval == w.slidingInterval && w'.tsField == w.tsField
  {
    var w := BuildWindow(f, toMs);
    var g := HydrateWindow(w, prior, fromMs);
    WindowRoundTrip(f, prior, toMs, fromMs);
    assert g.slidingNum == Text("") <==> f.slidingNum == Text("");
  }
}
