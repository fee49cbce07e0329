/**
 * The older network-IDS log page, which filters a fixed list of logs: a
 * search over source, destination and description, and the severity and
 * event-type filters.
 */
module MockNidsLogs {
  import opened Optional
  import opened Strings
  import opened LogFilter

  /** A log of the page; `destIp` is optional. */
  datatype NidsLog = NidsLog(
    id: string,
    timestamp: string,
    sourceIp: string,
    destIp: Option<string>,
    eventType: string,
    severity: string,
    description: string)

  /**
   * The source contains the query, or the destination (when there is one)
   * does, or the description does with case ignored on both sides.
   */
  predicate MatchesSearch(log: NidsLog, query: string) {
    || Contains(log.sourceIp, query)
    || (log.destIp.Some? && Contains(log.destIp.value, query))
    || Contains(Lower(log.description), Lower(query))
  }

  predicate Selected(value: string, filter: string) {
    filter == "all" || value == filter
  }

  predicate Matches(log: NidsLog, query: string, severityFilter: string, eventTypeFilter: string) {
    && MatchesSearch(log, query)
    && Selected(log.severity, severityFilter)
    && Selected(log.eventType, eventTypeFilter)
  }

  function FilteredLogs(logs: seq<NidsLog>, query: string, severityFilter: string,
                        eventTypeFilter: string): seq<NidsLog> {
    Filter(logs, log => Matches(log, query, severityFilter, eventTypeFilter))
  }

  /** The shown logs are exactly the matching ones, in their original order. */
  lemma FilteredLogsSpec(logs: seq<NidsLog>, query: string, severityFilter: string, eventTypeFilter: string)
    returns (positions: seq<nat>)
    ensures var shown := FilteredLogs(logs, query, severityFilter, eventTypeFilter);
      && |positions| == |shown|
      && (forall k :: 0 <= k < |shown| ==> positions[k] < |logs| && shown[k] == logs[positions[k]])
      && (forall k, m :: 0 <= k < m < |positions| ==> positions[k] < positions[m])
      && (forall log :: log in shown <==>
            log in logs
            && (|| Contains(log.sourceIp, query)
                || (log.destIp.Some? && Contains(log.destIp.value, query))
                || Contains(Lower(log.description), Lower(query)))
            && (severityFilter == "all" || log.severity == severityFilter)
            && (eventTypeFilter == "all" || log.eventType == eventTypeFilter))
  {
    var p := (log: NidsLog) => Matches(log, query, severityFilter, eventTypeFilter);
    positions := FilterPositions(logs, p);
    forall log ensures log in Filter(logs, p) <==> log in logs && p(log) {
      FilterMembership(logs, p, log);
    }
  }

  /**
   * A log without a destination matches exactly when its source or its
   * description does: the missing destination never matches by itself.
   */
  lemma MissingDestinationNeverMatches(log: NidsLog, query: string)
    requires log.destIp.None?
    ensures MatchesSearch(log, query) <==>
              Contains(log.sourceIp, query) || Contains(Lower(log.description), Lower(query))
  {
  }

  /** The destination alone can make a log match. */
  lemma DestinationAloneMatches()
    ensures MatchesSearch(NidsLog("1", "t", "a", Some("b"), "e", "low", ""), "b")
    ensures !MatchesSearch(NidsLog("1", "t", "a", None, "e", "low", ""), "b")
  {
    assert "b" <= "b";
    assert !Contains("", "b");
    assert "a"[1..] == "" && "a"[0] != "b"[0];
    assert !("b" <= "a");
    assert !Contains("a", "b");
    assert Lower("b") == "b";
    assert !Contains(Lower(""), Lower("b"));
  }

  /** An empty query matches every log. */
  lemma EmptyQueryMatchesAll(log: NidsLog)
    ensures MatchesSearch(log, "")
  {
    ContainsEmpty(log.sourceIp);
  }

  /** With no query and both filters at "all", every log is shown. */
  lemma NoFilterShowsAll(logs: seq<NidsLog>)
    ensures FilteredLogs(logs, "", "all", "all") == logs
  {
    forall i | 0 <= i < |logs| ensures Matches(logs[i], "", "all", "all") {
      EmptyQueryMatchesAll(logs[i]);
    }
    FilterKeepsAll(logs, log => Matches(log, "", "all", "all"));
  }
}
