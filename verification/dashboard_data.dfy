/**
 * The dashboard's data hook: the headline figures derived from the
 * correlated logs, and the state it keeps across fetches. It starts from
 * fixed figures and keeps them whenever a fetch fails or brings no logs.
 */
module DashboardData {
  import opened Optional
  import opened Strings
  import opened Json
  import opened LogFilter

  /** A log as the hook handles it: only `severity` is examined; the rest is carried along. */
  datatype DashLog = DashLog(id: string, severity: string, rest: map<string, Json>)

  datatype Stats = Stats(
    totalLogs: Json,
    threatsBlocked: nat,
    criticalAlerts: nat,
    activeAgents: string,
    logsChange: string,
    threatsChange: string,
    alertsChange: string)

  const RecentCount := 10

  predicate IsCritical(log: DashLog) {
    log.severity == "critical"
  }

  /** The caption under the critical-alerts figure. */
  function AlertsChange(criticalAlerts: nat): string {
    "+" + Decimal(criticalAlerts) + " new alerts"
  }

  /** The caption under the threats figure. */
  function ThreatsChange(threatsBlocked: nat): string {
    Decimal(threatsBlocked) + " blocked today"
  }

  /**
   * The figures for a non-empty list of logs and the response's `total`:
   * `total || 0` logs, every log a blocked threat, the critical ones as
   * alerts, and the fixed agent and logs-change texts.
   */
  function DeriveStats(logs: seq<DashLog>, total: Json): (s: Stats)
    ensures s.threatsBlocked == |logs|
    ensures s.criticalAlerts <= s.threatsBlocked
    ensures JsTruthy(total) ==> s.totalLogs == total
    ensures !JsTruthy(total) ==> s.totalLogs == JNum(0)
    ensures s.activeAgents == "3/3" && s.logsChange == "+12% from yesterday"
  {
    var criticalAlerts := |Filter(logs, IsCritical)|;
    var threatsBlocked := |logs|;
    Stats(if JsTruthy(total) then total else JNum(0), threatsBlocked, criticalAlerts,
          "3/3", "+12% from yesterday", ThreatsChange(threatsBlocked), AlertsChange(criticalAlerts))
  }

  /**
   * The critical-alerts figure counts exactly the logs whose severity is
   * "critical", and the two captions carry the two figures.
   */
  lemma DeriveStatsSpec(logs: seq<DashLog>, total: Json)
    ensures var s := DeriveStats(logs, total);
      && s.criticalAlerts == |set i | 0 <= i < |logs| && logs[i].severity == "critical"|
      && s.alertsChange == "+" + Decimal(s.criticalAlerts) + " new alerts"
      && s.threatsChange == Decimal(s.threatsBlocked) + " blocked today"
  {
    FilterCount(logs, IsCritical);
    assert MatchingIndices(logs, IsCritical) == set i | 0 <= i < |logs| && logs[i].severity == "critical";
  }

  /** The alerts caption determines the count it was made from. */
  lemma AlertsChangeInjective(a: nat, b: nat)
    requires AlertsChange(a) == AlertsChange(b)
    ensures a == b
  {
    var x, y := Decimal(a), Decimal(b);
    assert |x| == |y|;
    assert x == AlertsChange(a)[1..1 + |x|];
    assert y == AlertsChange(b)[1..1 + |y|];
    DecimalInjective(a, b);
  }

  /** The threats caption determines the count it was made from. */
  lemma ThreatsChangeInjective(a: nat, b: nat)
    requires ThreatsChange(a) == ThreatsChange(b)
    ensures a == b
  {
    var x, y := Decimal(a), Decimal(b);
    assert |x| == |y|;
    assert x == ThreatsChange(a)[..|x|];
    assert y == ThreatsChange(b)[..|y|];
    DecimalInjective(a, b);
  }

  /** `allLogs.slice(0, 10)`: the first ten logs, or all of them when there are fewer. */
  function RecentLogs(logs: seq<DashLog>): (recent: seq<DashLog>)
    ensures |recent| == if |logs| < RecentCount then |logs| else RecentCount
    ensures recent <= logs
  {
    if |logs| < RecentCount then logs else logs[..RecentCount]
  }

  /** How a fetch ends: a response with its status and decoded `logs` and `total`, or a thrown error. */
  datatype FetchOutcome =
    | Received(status: int, logs: Option<seq<DashLog>>, total: Json)
    | Thrown

  /** `response.ok`: a status in 200..299. */
  predicate Ok(status: int) {
    200 <= status < 300
  }

  /** The figures shown before any fetch has brought logs. */
  const InitialStats := Stats(JNum(12847), 234, 8, "3/3", "+12% from yesterday",
                              "234 blocked today", "+3 new alerts")

  /** The four placeholder logs shown before any fetch has brought logs; their timestamps are left out. */
  const InitialLogs := [
    DashLog("1", "high", map["sourceIp" := JStr("192.168.100.80"), "destIp" := JStr("192.168.100.255"),
                             "eventType" := JStr("Snort IDS"),
                             "description" := JStr("MISC UPnP malformed advertisement detected")]),
    DashLog("2", "critical", map["sourceIp" := JStr("203.45.67.89"), "destIp" := JStr("10.0.0.25"),
                                 "eventType" := JStr("Wazuh HIDS"),
                                 "description" := JStr("Multiple failed SSH login attempts")]),
    DashLog("3", "medium", map["sourceIp" := JStr("172.16.0.45"), "destIp" := JStr("10.0.0.100"),
                               "eventType" := JStr("Correlation"),
                               "description" := JStr("Suspicious traffic pattern correlation")]),
    DashLog("4", "low", map["sourceIp" := JStr("192.168.1.22"), "destIp" := JStr("10.0.0.75"),
                            "eventType" := JStr("Network Scan"),
                            "description" := JStr("Port scan activity detected")])
  ]

  class DashboardHook {
    var stats: Stats
    var recentLogs: seq<DashLog>
    var isLoading: bool
    var error: Option<string>
    var isAgentConnected: bool

    /** The hook's initial state: the fixed figures and logs, not loading, no error, agent connected. */
    constructor ()
      ensures stats == InitialStats && recentLogs == InitialLogs
      ensures !isLoading && error == None && isAgentConnected
    {
      stats := InitialStats;
      recentLogs := InitialLogs;
      isLoading := false;
      error := None;
      isAgentConnected := true;
    }

    /** The first update of `fetchDashboardData`: loading, error cleared, the rest kept. */
    method BeginFetch()
      modifies this
      ensures isLoading && error == None
      ensures stats == old(stats) && recentLogs == old(recentLogs) && isAgentConnected == old(isAgentConnected)
    {
      isLoading := true;
      error := None;
    }

    /**
     * The rest of `fetchDashboardData`. A good response with logs replaces
     * the figures and the recent logs; a good response without logs, a bad
     * status and a thrown error all keep them. Loading always ends, and no
     * error is ever recorded.
     */
    method ApplyOutcome(outcome: FetchOutcome)
      modifies this
      ensures !isLoading
      ensures outcome.Received? && Ok(outcome.status) && outcome.logs.GetOr([]) != [] ==>
                && stats == DeriveStats(outcome.logs.value, outcome.total)
                && recentLogs == RecentLogs(outcome.logs.value)
                && error == None && isAgentConnected
      ensures outcome.Received? && Ok(outcome.status) && outcome.logs.GetOr([]) == [] ==>
                && stats == old(stats) && recentLogs == old(recentLogs)
                && error == old(error) && isAgentConnected == old(isAgentConnected)
      ensures !(outcome.Received? && Ok(outcome.status)) ==>
                && stats == old(stats) && recentLogs == old(recentLogs)
                && error == None && isAgentConnected == old(isAgentConnected)
    {
      if outcome.Received? && Ok(outcome.status) {
        var allLogs := outcome.logs.GetOr([]);
        if |allLogs| > 0 {
          stats := DeriveStats(allLogs, outcome.total);
          recentLogs := RecentLogs(allLogs);
          isLoading := false;
          error := None;
          isAgentConnected := true;
        } else {
          isLoading := false;
        }
      } else {
        isLoading := false;
        error := None;
      }
    }

    /** A whole fetch: `BeginFetch`, then the outcome. It always ends not loading and without error. */
    method Refresh(outcome: FetchOutcome)
      modifies this
      ensures !isLoading && error == None
      ensures outcome.Received? && Ok(outcome.status) && outcome.logs.GetOr([]) != [] ==>
                stats == DeriveStats(outcome.logs.value, outcome.total)
                && recentLogs == RecentLogs(outcome.logs.value) && isAgentConnected
      ensures !(outcome.Received? && Ok(outcome.status) && outcome.logs.GetOr([]) != []) ==>
                stats == old(stats) && recentLogs == old(recentLogs) && isAgentConnected == old(isAgentConnected)
    {
      BeginFetch();
      ApplyOutcome(outcome);
    }
  }

  /**
   * The recent list never shows more critical logs than the critical-alerts
   * figure counts.
   */
  lemma RecentCriticalWithinFigure(logs: seq<DashLog>, total: Json)
    ensures |Filter(RecentLogs(logs), IsCritical)| <= DeriveStats(logs, total).criticalAlerts
  {
    FilterPrefix(logs, IsCritical, |RecentLogs(logs)|);
    assert RecentLogs(logs) == logs[..|RecentLogs(logs)|];
  }
}
