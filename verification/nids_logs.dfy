/**
 * The network-IDS log page of the dashboard: the logs it loads, and the
 * search and severity filter over them.
 */
module NidsLogs {
  import opened Optional
  import opened Strings
  import opened LogFilter

  /** A log as the page reads it; a missing or null message is None. */
  datatype NidsLog = NidsLog(id: string, message: Option<string>, severity: string)

  /** `data.logs || []`: the page's list after a decoded response. */
  function ReceivedLogs(logs: Option<seq<NidsLog>>): (shown: seq<NidsLog>)
    ensures logs.None? ==> shown == []
    ensures logs.Some? ==> shown == logs.value
  {
    logs.GetOr([])
  }

  /**
   * The logs after one fetch: a decoded response replaces them; a failed
   * fetch or decode (None) keeps what was shown.
   */
  function AfterFetch(previous: seq<NidsLog>, response: Option<Option<seq<NidsLog>>>): (logs: seq<NidsLog>)
    ensures response.None? ==> logs == previous
    ensures response.Some? && response.value.None? ==> logs == []
    ensures response.Some? && response.value.Some? ==> logs == response.value.value
  {
    match response
    case None => previous
    case Some(body) => ReceivedLogs(body)
  }

  /** `log.message?.toLowerCase().includes(searchQuery.toLowerCase())` */
  predicate MatchesSearch(log: NidsLog, query: string) {
    log.message.Some? && Contains(Lower(log.message.value), Lower(query))
  }

  /** `severityFilter === "all" || log.severity === severityFilter` */
  predicate MatchesSeverity(log: NidsLog, severityFilter: string) {
    severityFilter == "all" || log.severity == severityFilter
  }

  function FilteredLogs(logs: seq<NidsLog>, query: string, severityFilter: string): seq<NidsLog> {
    Filter(logs, log => MatchesSearch(log, query) && MatchesSeverity(log, severityFilter))
  }

  /**
   * A log is shown exactly when it has a message containing the query,
   * ignoring case, and its severity is the selected one (any, for "all");
   * the shown logs keep their order.
   */
  lemma FilteredLogsSpec(logs: seq<NidsLog>, query: string, severityFilter: string) returns (positions: seq<nat>)
    ensures var shown := FilteredLogs(logs, query, severityFilter);
      && |positions| == |shown|
      && (forall k :: 0 <= k < |shown| ==> positions[k] < |logs| && shown[k] == logs[positions[k]])
      && (forall k, m :: 0 <= k < m < |positions| ==> positions[k] < positions[m])
      && (forall log :: log in shown <==>
            log in logs && log.message.Some?
            && Contains(Lower(log.message.value), Lower(query))
            && (severityFilter == "all" || log.severity == severityFilter))
  {
    var p := (log: NidsLog) => MatchesSearch(log, query) && MatchesSeverity(log, severityFilter);
    positions := FilterPositions(logs, p);
    forall log ensures log in Filter(logs, p) <==> log in logs && p(log) {
      FilterMembership(logs, p, log);
    }
  }

  /** A log without a message is never shown, whatever the query. */
  lemma MissingMessageHidden(logs: seq<NidsLog>, query: string, severityFilter: string, log: NidsLog)
    requires log.message.None?
    ensures log !in FilteredLogs(logs, query, severityFilter)
  {
    FilterMembership(logs, log => MatchesSearch(log, query) && MatchesSeverity(log, severityFilter), log);
  }

  /** The search does not depend on the case of the query or of the message. */
  lemma SearchIgnoresCase(log: NidsLog, query: string)
    requires log.message.Some?
    ensures MatchesSearch(log, query) == MatchesSearch(log, Lower(query))
    ensures MatchesSearch(log, query) == MatchesSearch(log.(message := Some(Lower(log.message.value))), query)
  {
    LowerIdempotent(query);
    LowerIdempotent(log.message.value);
  }

  /**
   * With an empty query and severity "all", the page shows exactly the logs
   * that have a message.
   */
  lemma EmptyQueryShowsLogsWithMessages(logs: seq<NidsLog>)
    ensures FilteredLogs(logs, "", "all") == Filter(logs, (log: NidsLog) => log.message.Some?)
  {
    forall log: NidsLog | log.message.Some?
      ensures Contains(Lower(log.message.value), Lower(""))
    {
      ContainsEmpty(Lower(log.message.value));
    }
    FilterCongruent(logs, log => MatchesSearch(log, "") && MatchesSeverity(log, "all"),
                    (log: NidsLog) => log.message.Some?);
  }
}
