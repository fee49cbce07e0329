/**
 * The dashboard's log table: the cells each row shows, and the browser's
 * copy of the correlated-log message fallback, which is a second
 * implementation of the Flask service's (`FlaskApi.DerivedMessage`).
 *
 * `JSON.parse` is the parameter `parse` (None when it throws).
 */
module LogsTable {
  import opened Optional
  import opened Json
  import FlaskApi

  /** A log as the table receives it; `message` and `raw_json` may hold any JSON value. */
  datatype LogEntry = LogEntry(
    id: string,
    createdAt: string,
    source: string,
    message: Json,
    severity: string,
    rawJson: Json,
    correlated: bool,
    agentId: Option<string>)

  /**
   * The `try` block of the message cell: the message it assigns, or None
   * when it assigns nothing. A string `raw_json` is parsed (a parse error is
   * caught); any other value is used as it is. Reading a property of `null`
   * throws, and that is caught too; reading one of any other non-object
   * gives `undefined`.
   */
  function RawFallback(rawJson: Json, parse: string -> Option<Json>): Option<Json> {
    var parsed := if rawJson.JStr? then parse(rawJson.s) else Some(rawJson);
    match parsed
    case None => None
    case Some(data) =>
      if data.JNull? then None
      else
        var message := Prop(data, "message");
        var correlationType := Prop(data, "correlation_type");
        var stage1 := Prop(data, "stage1");
        var stage2 := Prop(data, "stage2");
        if JsTruthy(message) then Some(message)
        else if JsTruthy(correlationType) then Some(correlationType)
        else if JsTruthy(stage1) && JsTruthy(stage2) then
          Some(JStr(FlaskApi.Composed(AlertText(stage1), AlertText(stage2))))
        else None
  }

  /** `stage.wazuh_alert || 'Unknown event'`, as it is written into the template. */
  function AlertText(stage: Json): (t: string)
    ensures !JsTruthy(Prop(stage, "wazuh_alert")) ==> t == FlaskApi.UnknownEvent
  {
    var alert := Prop(stage, "wazuh_alert");
    if JsTruthy(alert) then JsText(alert) else FlaskApi.UnknownEvent
  }

  /**
   * The value the message cell shows. A truthy message is shown as it is;
   * the result is always truthy.
   */
  function MessageCell(message: Json, rawJson: Json, parse: string -> Option<Json>): (m: Json)
    ensures JsTruthy(m)
    ensures JsTruthy(message) ==> m == message
    ensures !JsTruthy(message) && !JsTruthy(rawJson) ==> m == JStr(FlaskApi.Placeholder)
    ensures !JsTruthy(message) && !rawJson.JObj?
            && !(rawJson.JStr? && parse(rawJson.s).Some? && parse(rawJson.s).value.JObj?)
            ==> m == JStr(FlaskApi.Placeholder)
  {
    var filled := if !JsTruthy(message) && JsTruthy(rawJson)
                  then RawFallback(rawJson, parse).GetOr(message)
                  else message;
    if JsTruthy(filled) then filled else JStr(FlaskApi.Placeholder)
  }

  /**
   * The message cell as the component computes it: a local message that the
   * fallback chain may overwrite, then the placeholder for a falsy one.
   */
  method ShowMessage(log: LogEntry, parse: string -> Option<Json>) returns (m: Json)
    ensures m == MessageCell(log.message, log.rawJson, parse)
  {
    m := log.message;
    if !JsTruthy(m) && JsTruthy(log.rawJson) {
      var parsed := if log.rawJson.JStr? then parse(log.rawJson.s) else Some(log.rawJson);
      if parsed.Some? && !parsed.value.JNull? {
        var data := parsed.value;
        if JsTruthy(Prop(data, "message")) {
          m := Prop(data, "message");
        } else if JsTruthy(Prop(data, "correlation_type")) {
          m := Prop(data, "correlation_type");
        } else if JsTruthy(Prop(data, "stage1")) && JsTruthy(Prop(data, "stage2")) {
          var stage1 := AlertText(Prop(data, "stage1"));
          var stage2 := AlertText(Prop(data, "stage2"));
          m := JStr(FlaskApi.Composed(stage1, stage2));
        }
      }
    }
    if !JsTruthy(m) {
      m := JStr(FlaskApi.Placeholder);
    }
  }

  /**
   * The order of the fallbacks, for a falsy message whose `raw_json` is an
   * object or a string that parses to one: its `message`, else its
   * `correlation_type`, else the composite of two truthy stages, else the
   * placeholder.
   */
  lemma FallbackPriority(message: Json, rawJson: Json, fields: map<string, Json>, parse: string -> Option<Json>)
    requires !JsTruthy(message)
    requires rawJson == JObj(fields) || (rawJson.JStr? && rawJson.s != "" && parse(rawJson.s) == Some(JObj(fields)))
    ensures var m := MessageCell(message, rawJson, parse);
      var data := JObj(fields);
      && (JsTruthy(Prop(data, "message")) ==> m == Prop(data, "message"))
      && ((!JsTruthy(Prop(data, "message")) && JsTruthy(Prop(data, "correlation_type")))
          ==> m == Prop(data, "correlation_type"))
      && ((!JsTruthy(Prop(data, "message")) && !JsTruthy(Prop(data, "correlation_type"))
           && JsTruthy(Prop(data, "stage1")) && JsTruthy(Prop(data, "stage2")))
          ==> m == JStr(FlaskApi.Composed(AlertText(Prop(data, "stage1")), AlertText(Prop(data, "stage2")))))
      && ((!JsTruthy(Prop(data, "message")) && !JsTruthy(Prop(data, "correlation_type"))
           && !(JsTruthy(Prop(data, "stage1")) && JsTruthy(Prop(data, "stage2"))))
          ==> m == JStr(FlaskApi.Placeholder))
  {
  }

  /** A string `raw_json` that does not parse: the error is caught and the placeholder shown. */
  lemma ParseErrorIsCaught(message: Json, text: string, parse: string -> Option<Json>)
    requires !JsTruthy(message) && parse(text) == None
    ensures MessageCell(message, JStr(text), parse) == JStr(FlaskApi.Placeholder)
  {
  }

  /** The colour classes of the severity badge; any other severity gets the muted class. */
  const CriticalClass := "bg-destructive text-destructive-foreground"
  const HighClass := "bg-destructive/20 text-destructive border-destructive/30"
  const MediumClass := "bg-warning/20 text-warning border-warning/30"
  const MutedClass := "bg-muted text-muted-foreground"

  /** The class chain of the severity badge: exact, case-sensitive comparisons. */
  function SeverityBadgeClass(severity: string): (c: string)
    ensures c == CriticalClass <==> severity == "critical"
    ensures c == HighClass <==> severity == "high"
    ensures c == MediumClass <==> severity == "medium"
    ensures c == MutedClass <==> severity !in {"critical", "high", "medium"}
  {
    if severity == "critical" then CriticalClass
    else if severity == "high" then HighClass
    else if severity == "medium" then MediumClass
    else MutedClass
  }

  /** The agent cell: the agent id, or "-" when it is missing, null or empty. */
  function AgentCell(agentId: Option<string>): (cell: string)
    ensures cell != ""
    ensures agentId.Some? && agentId.value != "" ==> cell == agentId.value
    ensures agentId.None? || agentId.value == "" ==> cell == "-"
  {
    match agentId
    case Some(a) => if a != "" then a else "-"
    case None => "-"
  }

  /** What one row of the table shows; the timestamp cell is not modelled. */
  datatype RowView = RowView(
    id: string,
    source: string,
    agent: string,
    severity: string,
    severityClass: string,
    correlated: string,
    message: Json)

  function RenderRow(log: LogEntry, parse: string -> Option<Json>): (v: RowView)
    ensures v.id == log.id && v.source == log.source && v.severity == log.severity
    ensures v.agent != "" && v.correlated in {"Yes", "No"} && JsTruthy(v.message)
    ensures v.correlated == "Yes" <==> log.correlated
  {
    RowView(log.id, log.source, AgentCell(log.agentId), log.severity,
            SeverityBadgeClass(log.severity), if log.correlated then "Yes" else "No",
            MessageCell(log.message, log.rawJson, parse))
  }

  /** `logs.map(...)`: one row per log, in the order given, none with an empty cell. */
  function RenderTable(logs: seq<LogEntry>, parse: string -> Option<Json>): (rows: seq<RowView>)
    ensures |rows| == |logs|
    ensures forall i :: 0 <= i < |logs| ==> rows[i] == RenderRow(logs[i], parse)
  {
    seq(|logs|, i requires 0 <= i < |logs| => RenderRow(logs[i], parse))
  }

  /** Every row keeps its log's id, shows a truthy message value and a non-empty agent cell. */
  lemma TableShowsEveryLog(logs: seq<LogEntry>, parse: string -> Option<Json>)
    ensures var rows := RenderTable(logs, parse);
      forall i :: 0 <= i < |logs| ==>
        rows[i].id == logs[i].id && JsTruthy(rows[i].message) && rows[i].agent != ""
  {
  }

  // ---------------------------------------------------------------------
  // The browser's copy against the service's copy
  // ---------------------------------------------------------------------

  /** A value the two truth tests agree on. */
  predicate SameTruth(v: Json) {
    v != JArr([]) && v != JObj(map[])
  }

  predicate FieldSameTruth(fields: map<string, Json>, key: string) {
    key !in fields || SameTruth(fields[key])
  }

  /** A stage whose `wazuh_alert` is absent, a non-empty string or a non-zero number. */
  predicate PlainAlert(stage: map<string, Json>) {
    "wazuh_alert" !in stage
    || (stage["wazuh_alert"].JStr? && stage["wazuh_alert"].s != "")
    || (stage["wazuh_alert"].JNum? && stage["wazuh_alert"].n != 0)
  }

  /**
   * A parsed `raw_json` of the shape the correlation engine writes: any
   * value but a dict, or a dict whose four fields are read the same way by
   * both truth tests and whose stages, when both are present, are dicts
   * with a plain `wazuh_alert`.
   */
  predicate ConventionalPayload(data: Json) {
    data.JObj? ==>
      && FieldSameTruth(data.fields, "message")
      && FieldSameTruth(data.fields, "correlation_type")
      && FieldSameTruth(data.fields, "stage1")
      && FieldSameTruth(data.fields, "stage2")
      && (("stage1" in data.fields && PyTruthy(data.fields["stage1"])
           && "stage2" in data.fields && PyTruthy(data.fields["stage2"]))
          ==> && data.fields["stage1"].JObj? && data.fields["stage2"].JObj?
              && PlainAlert(data.fields["stage1"].fields) && PlainAlert(data.fields["stage2"].fields))
  }

  /** A row whose columns hold what the database stores: a message and a JSON text (or null). */
  predicate Conventional(message: Json, rawJson: Json, parse: string -> Option<Json>) {
    && SameTruth(message)
    && (rawJson.JNull? || rawJson.JStr?)
    && (rawJson.JStr? && parse(rawJson.s).Some? ==> ConventionalPayload(parse(rawJson.s).value))
  }

  /** On a stage of the conventional shape the two alert texts coincide. */
  lemma AlertTextAgrees(stage: map<string, Json>, repr: Json -> string)
    requires PlainAlert(stage)
    ensures AlertText(JObj(stage))
            == PyText(Get(stage, "wazuh_alert").GetOr(JStr(FlaskApi.UnknownEvent)), repr)
  {
  }

  /**
   * On conventional rows the browser shows exactly the message the service
   * derives, given the same JSON decoder.
   */
  lemma CopiesAgree(message: Json, rawJson: Json, parse: string -> Option<Json>, repr: Json -> string)
    requires Conventional(message, rawJson, parse)
    ensures MessageCell(message, rawJson, parse) == FlaskApi.DerivedMessage(message, rawJson, parse, repr)
  {
    TruthinessAgreesExceptEmptyContainers(message);
    if rawJson.JStr? {
      FallbacksAgree(rawJson, parse, repr);
    }
  }

  /** On a JSON text that decodes to a conventional payload (or not at all) the two `try` blocks agree. */
  lemma FallbacksAgree(rawJson: Json, parse: string -> Option<Json>, repr: Json -> string)
    requires rawJson.JStr?
    requires parse(rawJson.s).Some? ==> ConventionalPayload(parse(rawJson.s).value)
    ensures RawFallback(rawJson, parse) == FlaskApi.RawFallback(rawJson, parse, repr)
  {
    match parse(rawJson.s)
    case None =>
    case Some(data) =>
      if data.JObj? {
        TruthinessAgreesExceptEmptyContainers(Prop(data, "message"));
        TruthinessAgreesExceptEmptyContainers(Prop(data, "correlation_type"));
        TruthinessAgreesExceptEmptyContainers(Prop(data, "stage1"));
        TruthinessAgreesExceptEmptyContainers(Prop(data, "stage2"));
        var s1 := Prop(data, "stage1");
        var s2 := Prop(data, "stage2");
        if JsTruthy(s1) && JsTruthy(s2) {
          AlertTextAgrees(s1.fields, repr);
          AlertTextAgrees(s2.fields, repr);
        }
      }
  }

  /** A stage whose `wazuh_alert` is null: the service writes "None", the browser "Unknown event". */
  lemma NullAlertDiverges(message: Json, text: string, parse: string -> Option<Json>, repr: Json -> string)
    requires !PyTruthy(message) && !JsTruthy(message) && text != ""
    requires parse(text) == Some(JObj(map["stage1" := JObj(map["wazuh_alert" := JNull]),
                                         "stage2" := JObj(map["wazuh_alert" := JStr("x")])]))
    ensures FlaskApi.DerivedMessage(message, JStr(text), parse, repr) == JStr(FlaskApi.Composed("None", "x"))
    ensures MessageCell(message, JStr(text), parse) == JStr(FlaskApi.Composed(FlaskApi.UnknownEvent, "x"))
  {
    var s1 := map["wazuh_alert" := JNull];
    var s2 := map["wazuh_alert" := JStr("x")];
    var fields := map["stage1" := JObj(s1), "stage2" := JObj(s2)];
    assert "message" !in fields && "correlation_type" !in fields;
    assert Get(s1, "wazuh_alert").GetOr(JStr(FlaskApi.UnknownEvent)) == JNull;
    assert Get(s2, "wazuh_alert").GetOr(JStr(FlaskApi.UnknownEvent)) == JStr("x");
    assert FlaskApi.RawFallback(JStr(text), parse, repr) == Some(JStr(FlaskApi.Composed("None", "x")));
  }

  /**
   * Stages that are strings: `.get` raises in the service, which falls back
   * to the placeholder; the browser composes two unknown events.
   */
  lemma StringStagesDiverge(message: Json, text: string, parse: string -> Option<Json>, repr: Json -> string)
    requires !PyTruthy(message) && !JsTruthy(message) && text != ""
    requires parse(text) == Some(JObj(map["stage1" := JStr("a"), "stage2" := JStr("b")]))
    ensures FlaskApi.DerivedMessage(message, JStr(text), parse, repr) == JStr(FlaskApi.Placeholder)
    ensures MessageCell(message, JStr(text), parse)
            == JStr(FlaskApi.Composed(FlaskApi.UnknownEvent, FlaskApi.UnknownEvent))
  {
    var fields := map["stage1" := JStr("a"), "stage2" := JStr("b")];
    assert "message" !in fields && "correlation_type" !in fields;
  }

  /**
   * A `raw_json` that arrives already decoded: `json.loads` raises on it in
   * the service, while the browser reads its message.
   */
  lemma DecodedRawJsonDiverges(parse: string -> Option<Json>, repr: Json -> string)
    ensures FlaskApi.DerivedMessage(JNull, JObj(map["message" := JStr("m")]), parse, repr)
            == JStr(FlaskApi.Placeholder)
    ensures MessageCell(JNull, JObj(map["message" := JStr("m")]), parse) == JStr("m")
  {
  }

  /** An empty list as message: false for Python, true for JavaScript. */
  lemma EmptyListMessageDiverges(parse: string -> Option<Json>, repr: Json -> string)
    ensures FlaskApi.DerivedMessage(JArr([]), JNull, parse, repr) == JStr(FlaskApi.Placeholder)
    ensures MessageCell(JArr([]), JNull, parse) == JArr([])
  {
  }
}
