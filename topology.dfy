/** The topology objects the form edits: the window processor node, its
    rule node, and the edge from the input stream, together with the parts
    of handleSave, updateProcessorNode and updateEdges that compute them. */
module Topology {
  import opened Wrappers
  import opened JsString
  import opened Projections
  import opened WindowSpec
  import opened Schema

  /** The processor's `config.properties.rules`: missing, the stored list of
      rule ids, or the id of a rule the form just created. */
  datatype RuleRef = NoRules | RuleList(ids: seq<int>) | RuleId(id: int)

  /** The reference is truthy: any list (even empty), or a non-zero id. */
  predicate Assigned(r: RuleRef) {
    r.RuleList? || (r.RuleId? && r.id != 0)
  }

  /** An entry of the processor's `outputStreams`. */
  datatype OutputStream = OutputStream(streamId: string, fields: seq<SchemaField>)

  /** The window processor node (`processorNode` of the parent form), which the
      form updates in place. */
  class ProcessorNode {
    var id: nat
    var name: string
    var description: string
    var parallelism: Option<int>
    var rules: RuleRef
    var outputStreams: seq<OutputStream>

    constructor (id: nat, name: string, description: string, parallelism: Option<int>, rules: RuleRef,
                 outputStreams: seq<OutputStream>)
      ensures this.id == id && this.name == name && this.description == description
      ensures this.parallelism == parallelism && this.rules == rules && this.outputStreams == outputStreams
    {
      this.id := id;
      this.name := name;
      this.description := description;
      this.parallelism := parallelism;
      this.rules := rules;
      this.outputStreams := outputStreams;
    }
  }

  /** The window rule node, fetched or created over REST, which handleSave
      fills in place. A stream id may be `undefined` when the form has no
      input stream. */
  class RuleNode {
    var id: int
    var name: string
    var description: string
    var projections: seq<Projection>
    var streams: seq<Option<string>>
    var groupbykeys: seq<string>
    var outputStreams: seq<string>
    var window: Option<Window>

    constructor (id: int, name: string, description: string, projections: seq<Projection>,
                 streams: seq<Option<string>>, groupbykeys: seq<string>, outputStreams: seq<string>,
                 window: Option<Window>)
      ensures this.id == id && this.name == name && this.description == description
      ensures this.projections == projections && this.streams == streams
      ensures this.groupbykeys == groupbykeys && this.outputStreams == outputStreams && this.window == window
    {
      this.id := id;
      this.name := name;
      this.description := description;
      this.projections := projections;
      this.streams := streams;
      this.groupbykeys := groupbykeys;
      this.outputStreams := outputStreams;
      this.window := window;
    }
  }

  /** The body of the rule getDataFromParentFormContext asks the server to
      create when the processor has no rule yet. */
  datatype DummyRule = DummyRule(name: string, description: string, projections: seq<Projection>,
                                 streams: seq<string>, actions: seq<string>, groupbykeys: seq<string>,
                                 outputStreams: seq<string>)

  const AutoGeneratedRule: DummyRule :=
    DummyRule("window_auto_generated", "window description auto generated", [], [], [], [], [])

  const TransformPrefix: string := "window_transform_stream_"
  const NotifierPrefix: string := "window_notifier_stream_"

  /** The two output stream names handleSave gives a processor with id `id`. */
  function OutputStreamNames(id: nat): (names: seq<string>)
    ensures |names| == 2
    ensures names[0] != names[1]
  {
    var t, n := TransformPrefix + DecimalString(id), NotifierPrefix + DecimalString(id);
    assert t[7] != n[7];
    [t, n]
  }

  /** Distinct processors get distinct output stream names. */
  lemma {:induction false} OutputStreamNamesInjective(a: nat, b: nat)
    requires a != b
    ensures OutputStreamNames(a)[0] != OutputStreamNames(b)[0]
    ensures OutputStreamNames(a)[1] != OutputStreamNames(b)[1]
  {
    DecimalStringInjective(a, b);
    var da, db := DecimalString(a), DecimalString(b);
    assert (TransformPrefix + da)[|TransformPrefix|..] == da;
    assert (TransformPrefix + db)[|TransformPrefix|..] == db;
    assert (NotifierPrefix + da)[|NotifierPrefix|..] == da;
    assert (NotifierPrefix + db)[|NotifierPrefix|..] == db;
  }

  /** Decimal notation is one-to-one. */
  lemma {:induction false} DecimalStringInjective(a: nat, b: nat)
    requires a != b
    ensures DecimalString(a) != DecimalString(b)
    decreases a + b
  {
    var da, db := DecimalString(a), DecimalString(b);
    if a < 10 && b < 10 {
      assert da[0] != db[0];
    } else if a < 10 {
      assert |db| >= 2 by { assert db == DecimalString(b / 10) + [DigitChar(b % 10)]; }
    } else if b < 10 {
      assert |da| >= 2 by { assert da == DecimalString(a / 10) + [DigitChar(a % 10)]; }
    } else if a % 10 != b % 10 {
      assert da[|da| - 1] == DigitChar(a % 10);
      assert db[|db| - 1] == DigitChar(b % 10);
      DigitCharInjective(a % 10, b % 10);
    } else {
      assert a / 10 != b / 10;
      DecimalStringInjective(a / 10, b / 10);
      assert da[..|da| - 1] == DecimalString(a / 10);
      assert db[..|db| - 1] == DecimalString(b / 10);
    }
  }

  lemma DigitCharInjective(x: nat, y: nat)
    requires x < 10 && y < 10 && x != y
    ensures DigitChar(x) != DigitChar(y)
  {
  }

  /** The output streams updateProcessorNode leaves on the processor: existing
      streams keep their ids and all get the new fields; a processor without
      streams gets one per name in `names`, in order. */
  function StreamsAfterUpdate(current: seq<OutputStream>, names: seq<string>, fields: seq<SchemaField>)
    : (r: seq<OutputStream>)
    ensures |current| > 0 ==> |r| == |current| && forall i :: 0 <= i < |r| ==> r[i].streamId == current[i].streamId
    ensures |current| == 0 ==> |r| == |names| && forall i :: 0 <= i < |r| ==> r[i].streamId == names[i]
    ensures forall i :: 0 <= i < |r| ==> r[i].fields == fields
  {
    if |current| > 0 then seq(|current|, i requires 0 <= i < |current| => current[i].(fields := fields))
    else seq(|names|, i requires 0 <= i < |names| => OutputStream(names[i], fields))
  }

  /** Updating twice with the same fields is the same as updating once. */
  lemma StreamsAfterUpdateIdempotent(current: seq<OutputStream>, names: seq<string>, fields: seq<SchemaField>)
    ensures StreamsAfterUpdate(StreamsAfterUpdate(current, names, fields), names, fields)
            == StreamsAfterUpdate(current, names, fields)
  {
  }

  // ----------------------------------------------------------------- edges

  /** An edge of the topology: `source.nodeId`, `target.nodeId` and the id of
      the stream it carries (`streamGrouping.streamId`). */
  datatype Edge = Edge(edgeId: int, sourceNodeId: int, targetNodeId: int, streamId: int)

  /** An input stream option of the parent form. */
  datatype StreamOption = StreamOption(id: int, streamId: string, fields: seq<Field>)

  /** The body updateEdges sends for the edge: a single FIELDS grouping. */
  datatype EdgeData = EdgeData(fromId: int, toId: int, streamId: int, grouping: string, fields: seq<string>)

  datatype EdgeUpdate = EdgeUpdate(edgeId: int, data: EdgeData)

  /** The group-key path written with dots: `a['b']` becomes `a.b`. */
  function NormalizePath(key: string): string {
    ReplaceAll(ReplaceAll(key, "['", "."), "']", "")
  }

  /** The first edge carrying stream `streamId`. */
  function FindEdge(edges: seq<Edge>, streamId: int): (r: Option<Edge>)
    ensures r.Some? ==> r.value in edges && r.value.streamId == streamId
    ensures r.Some? ==> exists i :: 0 <= i < |edges| && edges[i] == r.value &&
                          forall j :: 0 <= j < i ==> edges[j].streamId != streamId
    ensures r.None? <==> forall i :: 0 <= i < |edges| ==> edges[i].streamId != streamId
  {
    if edges == [] then None
    else if edges[0].streamId == streamId then Some(edges[0])
    else
      var r := FindEdge(edges[1..], streamId);
      assert forall j :: 1 <= j < |edges| ==> edges[j] == edges[1..][j - 1];
      r
  }

  /** updateEdges: the edge from the first input stream, grouped by the
      rule's group keys written with dots. It throws when there is no input
      stream option or no edge carries that stream. */
  function UpdateEdges(groupbykeys: seq<string>, currentEdges: seq<Edge>, inputStreamOptions: seq<StreamOption>)
    : (r: Result<EdgeUpdate>)
    ensures r.Ok? <==> |inputStreamOptions| > 0 && FindEdge(currentEdges, inputStreamOptions[0].id).Some?
    ensures r.Ok? ==> var e := FindEdge(currentEdges, inputStreamOptions[0].id).value;
                      && r.value.edgeId == e.edgeId
                      && r.value.data.fromId == e.sourceNodeId && r.value.data.toId == e.targetNodeId
                      && r.value.data.streamId == inputStreamOptions[0].id
                      && r.value.data.grouping == "FIELDS"
                      && |r.value.data.fields| == |groupbykeys|
                      && forall i :: 0 <= i < |groupbykeys| ==> r.value.data.fields[i] == NormalizePath(groupbykeys[i])
  {
    var fields := seq(|groupbykeys|, i requires 0 <= i < |groupbykeys| => NormalizePath(groupbykeys[i]));
    if |inputStreamOptions| == 0 then TypeError("Cannot read property 'id' of undefined")
    else match FindEdge(currentEdges, inputStreamOptions[0].id)
      case None => TypeError("Cannot read property 'source' of undefined")
      case Some(e) => Ok(EdgeUpdate(e.edgeId, EdgeData(e.sourceNodeId, e.targetNodeId, e.streamId, "FIELDS", fields)))
  }

  /** A path segment that can take part in neither pattern. */
  predicate PlainSegment(s: string) {
    forall i :: 0 <= i < |s| ==> s[i] != '[' && s[i] != '\''
  }

  /** A plain key is left as it is. */
  lemma NormalizePlain(a: string)
    requires PlainSegment(a)
    ensures NormalizePath(a) == a
  {
    ReplaceAllSkips(a, "", "['", ".");
    ReplaceAllSkips(a, "", "']", "");
    assert a + "" == a;
  }

  /** A bracketed child `a['b']` is written `a.b`. */
  lemma NormalizeBracket(a: string, b: string)
    requires PlainSegment(a) && PlainSegment(b)
    ensures NormalizePath(a + "['" + b + "']") == a + "." + b
  {
    var s := a + "['" + b + "']";
    assert s == a + ("['" + (b + "']"));
    ReplaceAllSkips(a, "['" + (b + "']"), "['", ".");
    ReplaceAllMatch(b + "']", "['", ".");
    ReplaceAllSkips(b, "']", "['", ".");
    ReplaceAllMatch("", "['", ".");
    assert ReplaceAll("']", "['", ".") == "']" by {
      assert "']"[..2] != "['";
    }
    var t := a + "." + b + "']";
    assert ReplaceAll(s, "['", ".") == t;
    assert t == (a + "." + b) + ("']" + "");
    assert PlainSegment(a + "." + b);
    ReplaceAllSkips(a + "." + b, "']", "']", "");
    ReplaceAllMatch("", "']", "");
    assert ReplaceAll("", "']", "") == "";
  }
}
