/**
 * The host-IDS log page: a search over host and description, and the
 * severity and event-type filters, applied to the page's fixed logs.
 */
module HidsLogs {
  import opened Strings
  import opened LogFilter

  datatype HidsLog = HidsLog(
    id: string,
    timestamp: string,
    sourceIp: string,
    eventType: string,
    severity: string,
    description: string)

  /**
   * The host contains the query as typed, or the description contains it
   * with case ignored on both sides.
   */
  predicate MatchesSearch(log: HidsLog, query: string) {
    Contains(log.sourceIp, query) || Contains(Lower(log.description), Lower(query))
  }

  /** A filter set to "all" accepts anything; any other value must be equal. */
  predicate Selected(value: string, filter: string) {
    filter == "all" || value == filter
  }

  predicate Matches(log: HidsLog, query: string, severityFilter: string, eventTypeFilter: string) {
    && MatchesSearch(log, query)
    && Selected(log.severity, severityFilter)
    && Selected(log.eventType, eventTypeFilter)
  }

  function FilteredLogs(logs: seq<HidsLog>, query: string, severityFilter: string,
                        eventTypeFilter: string): seq<HidsLog> {
    Filter(logs, log => Matches(log, query, severityFilter, eventTypeFilter))
  }

  /**
   * The shown logs are the matching ones in their order, and "Showing N of
   * M" never has N above M.
   */
  lemma FilteredLogsSpec(logs: seq<HidsLog>, query: string, severityFilter: string, eventTypeFilter: string)
    returns (positions: seq<nat>)
    ensures var shown := FilteredLogs(logs, query, severityFilter, eventTypeFilter);
      && |shown| <= |logs|
      && |positions| == |shown|
      && (forall k :: 0 <= k < |shown| ==> positions[k] < |logs| && shown[k] == logs[positions[k]])
      && (forall k, m :: 0 <= k < m < |positions| ==> positions[k] < positions[m])
      && (forall log :: log in shown <==>
            log in logs
            && (Contains(log.sourceIp, query) || Contains(Lower(log.description), Lower(query)))
            && (severityFilter == "all" || log.severity == severityFilter)
            && (eventTypeFilter == "all" || log.eventType == eventTypeFilter))
  {
    var p := (log: HidsLog) => Matches(log, query, severityFilter, eventTypeFilter);
    positions := FilterPositions(logs, p);
    forall log ensures log in Filter(logs, p) <==> log in logs && p(log) {
      FilterMembership(logs, p, log);
    }
  }

  /** An empty query matches every log. */
  lemma EmptyQueryMatchesAll(log: HidsLog)
    ensures MatchesSearch(log, "")
  {
    ContainsEmpty(log.sourceIp);
  }

  /** With no query and both filters at "all", every log is shown. */
  lemma NoFilterShowsAll(logs: seq<HidsLog>)
    ensures FilteredLogs(logs, "", "all", "all") == logs
  {
    forall i | 0 <= i < |logs| ensures Matches(logs[i], "", "all", "all") {
      EmptyQueryMatchesAll(logs[i]);
    }
    FilterKeepsAll(logs, log => Matches(log, "", "all", "all"));
  }
}
