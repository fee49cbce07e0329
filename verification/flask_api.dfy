/**
 * The Flask service's correlated-log endpoint after the query: each row's
 * empty message is filled in from its `raw_json` column, and a placeholder
 * is put where nothing is found; and the critical-count endpoint's default.
 *
 * `json.loads` is the parameter `parse` (None when it raises), and
 * Python's `repr` of a list or dict is the parameter `repr`.
 */
module FlaskApi {
  import opened Optional
  import opened Json

  const Placeholder := "No description available"
  const UnknownEvent := "Unknown event"

  /** One row of the query: `id, timestamp, source, message, severity, raw_json, created_at`. */
  datatype Row = Row(
    id: int,
    timestamp: string,
    source: string,
    message: Json,
    severity: string,
    rawJson: Json,
    createdAt: string)

  /** The message composed from the two stages of a correlation. */
  function Composed(stage1: string, stage2: string): string {
    "Correlated events: " + stage1 + " → " + stage2
  }

  /**
   * The `try` block: the message it assigns, or None when it assigns nothing
   * (no branch applies, or `json.loads` or a `.get` raises and the bare
   * `except` swallows it). `json.loads` of a non-string raises TypeError;
   * `.get` on anything but a dict raises AttributeError, which is why a
   * stage that is not a dict leaves the message as it was.
   */
  function RawFallback(rawJson: Json, parse: string -> Option<Json>, repr: Json -> string): Option<Json> {
    if !rawJson.JStr? then None
    else match parse(rawJson.s)
      case None => None
      case Some(data) =>
        if !data.JObj? then None
        else
          var message := Get(data.fields, "message").GetOr(JNull);
          var correlationType := Get(data.fields, "correlation_type").GetOr(JNull);
          var stage1 := Get(data.fields, "stage1").GetOr(JNull);
          var stage2 := Get(data.fields, "stage2").GetOr(JNull);
          if PyTruthy(message) then Some(message)
          else if PyTruthy(correlationType) then Some(correlationType)
          else if PyTruthy(stage1) && PyTruthy(stage2) then
            if !stage1.JObj? || !stage2.JObj? then None
            else
              var alert1 := Get(stage1.fields, "wazuh_alert").GetOr(JStr(UnknownEvent));
              var alert2 := Get(stage2.fields, "wazuh_alert").GetOr(JStr(UnknownEvent));
              Some(JStr(Composed(PyText(alert1, repr), PyText(alert2, repr))))
          else None
  }

  /**
   * The message a processed row ends with. A truthy message is kept; the
   * result is always truthy, so never empty.
   */
  function DerivedMessage(message: Json, rawJson: Json, parse: string -> Option<Json>,
                          repr: Json -> string): (m: Json)
    ensures PyTruthy(m)
    ensures PyTruthy(message) ==> m == message
    ensures !PyTruthy(message) && !PyTruthy(rawJson) ==> m == JStr(Placeholder)
    ensures !PyTruthy(message) && !(rawJson.JStr? && parse(rawJson.s).Some? && parse(rawJson.s).value.JObj?)
            ==> m == JStr(Placeholder)
  {
    var filled := if !PyTruthy(message) && PyTruthy(rawJson)
                  then RawFallback(rawJson, parse, repr).GetOr(message)
                  else message;
    if PyTruthy(filled) then filled else JStr(Placeholder)
  }

  /** The value stored under `key` when it is truthy, as `d.get(key)` is tested. */
  predicate HasTruthy(fields: map<string, Json>, key: string) {
    key in fields && PyTruthy(fields[key])
  }

  /**
   * The order of the fallbacks, for a row with no message whose `raw_json`
   * decodes to a dict: its `message` if truthy, else its `correlation_type`
   * if truthy, else, when both stages are truthy dicts, the two stages'
   * `wazuh_alert` values (a missing one reads "Unknown event") composed,
   * else the placeholder.
   */
  lemma FallbackPriority(message: Json, text: string, fields: map<string, Json>,
                         parse: string -> Option<Json>, repr: Json -> string)
    requires !PyTruthy(message) && text != "" && parse(text) == Some(JObj(fields))
    ensures var m := DerivedMessage(message, JStr(text), parse, repr);
      && (HasTruthy(fields, "message") ==> m == fields["message"])
      && ((!HasTruthy(fields, "message") && HasTruthy(fields, "correlation_type"))
          ==> m == fields["correlation_type"])
      && ((!HasTruthy(fields, "message") && !HasTruthy(fields, "correlation_type")
           && HasTruthy(fields, "stage1") && HasTruthy(fields, "stage2")
           && fields["stage1"].JObj? && fields["stage2"].JObj?)
          ==> m == JStr(Composed(
                     PyText(Get(fields["stage1"].fields, "wazuh_alert").GetOr(JStr(UnknownEvent)), repr),
                     PyText(Get(fields["stage2"].fields, "wazuh_alert").GetOr(JStr(UnknownEvent)), repr))))
      && ((!HasTruthy(fields, "message") && !HasTruthy(fields, "correlation_type")
           && !(HasTruthy(fields, "stage1") && HasTruthy(fields, "stage2")))
          ==> m == JStr(Placeholder))
  {
  }

  /**
   * A truthy stage that is not a dict makes `.get` raise; the bare `except`
   * swallows it and the row gets the placeholder.
   */
  lemma StageNotDict(message: Json, text: string, fields: map<string, Json>,
                     parse: string -> Option<Json>, repr: Json -> string)
    requires !PyTruthy(message) && text != ""
    requires parse(text) == Some(JObj(fields))
    requires !HasTruthy(fields, "message") && !HasTruthy(fields, "correlation_type")
    requires HasTruthy(fields, "stage1") && HasTruthy(fields, "stage2")
    requires !(fields["stage1"].JObj? && fields["stage2"].JObj?)
    ensures DerivedMessage(message, JStr(text), parse, repr) == JStr(Placeholder)
  {
  }

  /**
   * Both stages are dicts without `wazuh_alert`: the composed message names
   * two unknown events.
   */
  lemma StagesWithoutAlerts(message: Json, text: string, s1: map<string, Json>, s2: map<string, Json>,
                            parse: string -> Option<Json>, repr: Json -> string)
    requires !PyTruthy(message) && text != ""
    requires s1 != map[] && s2 != map[] && "wazuh_alert" !in s1 && "wazuh_alert" !in s2
    requires parse(text) == Some(JObj(map["stage1" := JObj(s1), "stage2" := JObj(s2)]))
    ensures DerivedMessage(message, JStr(text), parse, repr)
              == JStr(Composed(UnknownEvent, UnknownEvent))
  {
    var fields := map["stage1" := JObj(s1), "stage2" := JObj(s2)];
    assert "message" !in fields && "correlation_type" !in fields;
    assert Get(s1, "wazuh_alert") == None && Get(s2, "wazuh_alert") == None;
    assert RawFallback(JStr(text), parse, repr) == Some(JStr(Composed(UnknownEvent, UnknownEvent)));
  }

  /** A `raw_json` that does not parse leaves the row with the placeholder. */
  lemma UnparsableRawJson(message: Json, text: string, parse: string -> Option<Json>, repr: Json -> string)
    requires !PyTruthy(message) && parse(text) == None
    ensures DerivedMessage(message, JStr(text), parse, repr) == JStr(Placeholder)
  {
  }

  /**
   * The processing loop of `get_correlated_logs`: one output row per input
   * row, in the same order, with only the message changed.
   */
  method ProcessCorrelatedLogs(rows: seq<Row>, parse: string -> Option<Json>, repr: Json -> string)
    returns (processed: seq<Row>)
    ensures |processed| == |rows|
    ensures forall i :: 0 <= i < |rows| ==>
              processed[i] == rows[i].(message := DerivedMessage(rows[i].message, rows[i].rawJson, parse, repr))
  {
    processed := [];
    var i := 0;
    while i < |rows|
      invariant 0 <= i <= |rows|
      invariant |processed| == i
      invariant forall k :: 0 <= k < i ==>
                  processed[k] == rows[k].(message := DerivedMessage(rows[k].message, rows[k].rawJson, parse, repr))
    {
      var row := rows[i];
      var message := row.message;
      if !PyTruthy(message) && PyTruthy(row.rawJson) {
        var extracted := RawFallback(row.rawJson, parse, repr);
        if extracted.Some? {
          message := extracted.value;
        }
      }
      if !PyTruthy(message) {
        message := JStr(Placeholder);
      }
      processed := processed + [row.(message := message)];
      i := i + 1;
    }
  }

  /** Every processed row has a non-empty message, and no other column changes. */
  lemma ProcessedRowsAreComplete(row: Row, parse: string -> Option<Json>, repr: Json -> string)
    ensures var out := row.(message := DerivedMessage(row.message, row.rawJson, parse, repr));
      && PyTruthy(out.message)
      && out.id == row.id && out.timestamp == row.timestamp && out.source == row.source
      && out.severity == row.severity && out.rawJson == row.rawJson && out.createdAt == row.createdAt
  {
  }

  /**
   * `get_critical_count`: the `critical` column of the single result row,
   * or 0 when the query returns no row.
   */
  function CriticalCount(result: Option<int>): (count: int)
    ensures result == None ==> count == 0
    ensures result.Some? ==> count == result.value
  {
    match result
    case None => 0
    case Some(c) => c
  }
}
