# Security log dashboard: a verified model of its log core

The dashboard collects security events from three sources and shows them in one
place. The sources are a host intrusion-detection system (Wazuh alerts), a network
intrusion-detection system (Snort alerts) and a correlation engine that pairs events
from the two.

This Dafny project models and proves the parts of the system that decide what a user
sees:

- **The PHP log aggregation endpoint.** It checks the request method and computes the
  effective limit. It reads the host-IDS alert feed (newline-delimited JSON): it keeps
  the last `limit` lines, skips blank and undecodable lines, fills in field defaults
  and returns the alerts newest first. It classifies each alert by severity tier and by
  keyword-based event type. It passes the other two sources through, and reports the
  three lists with their total.
- **The Flask service's correlated-log endpoint.** It fills in an empty message from
  the row's raw JSON by a fixed fallback order, and otherwise writes a placeholder. The
  critical-count endpoint defaults to 0.
- **The dashboard's log table.** It holds a second copy of the same message fallback,
  written in JavaScript, plus the severity badge and the agent cell. The model proves
  where the two copies agree and gives concrete inputs on which they differ.
- **The activity chart.** It normalises hourly counts into exactly 24 buckets with
  labels "00:00" to "23:00".
- **The search and filter predicates of the three log pages.**
- **The dashboard data hook.** It derives the headline figures, keeps a 10-log recent
  list, and keeps its previous state when a fetch fails or brings nothing.

Code that changes state step by step is modelled imperatively:

- the adapter's line loop (`WazuhAdapter.FetchWazuhLogs` and `WazuhAdapter.DecodeLines`);
- the endpoint's handler with its early exits (`LogsEndpoint.HandleRequest`);
- the Flask processing loop (`FlaskApi.ProcessCorrelatedLogs`);
- the message cell's reassigned local (`LogsTable.ShowMessage`);
- the chart's 24-step loop (`ActivityOverview.Normalize`);
- the two React state holders (the classes `ActivityOverview.ActivityChart` and
  `DashboardData.DashboardHook`).

Each of these methods is proved against a specification function, and the properties
are proved about those functions.

Foreign and environmental inputs are parameters:

- the fetched bodies (None when the fetch fails);
- `json_decode`, `json.loads` and `JSON.parse` (None when decoding fails or, for PHP,
  yields a falsy value);
- `uniqid()`, as a function of the line's position;
- `date('c')`: one reading per host-IDS alert, as a function of the line's position, and a separate one for the response;
- Python's `repr` of lists and dicts.

Where the code and the system's written design disagree, the model follows the code:

- **The limit has no lower clamp.** The code computes `min(limit, 1000)` and nothing
  more. A limit of 0 reads the whole feed (`array_slice($lines, -0)`), and a negative
  limit drops the first |limit| lines. `LogsEndpoint.LimitExamples`,
  `WazuhAdapter.ZeroLimitReadsEverything` and `LogsEndpoint.HostContributionUncapped`
  state this; the last shows that a request with limit 0 returns one host-IDS event per
  decodable line of the feed, more than 1000 when the feed has more. The 1000 ceiling of
  `LogsEndpoint.HostContributionCapped` holds only for an effective limit of at least 1.
  The design asks for a clamp to [1, 1000].
- **An event's description can be empty.** `??` only replaces an absent or null field,
  so a present but empty rule description stays empty
  (`WazuhAdapter.EmptyDescriptionIsKept`). The design says a description is never
  empty.
- **The two message fallbacks are not the same function.** They agree on rows of the
  usual shape (`LogsTable.CopiesAgree`). They differ on the inputs given by:
  - `LogsTable.NullAlertDiverges`;
  - `LogsTable.StringStagesDiverge`;
  - `LogsTable.DecodedRawJsonDiverges`;
  - `LogsTable.EmptyListMessageDiverges`.
- **A shown message can be blank.** The design says every log shows a non-empty
  message. The table only guarantees a truthy value (`LogsTable.TableShowsEveryLog`),
  and a message or fallback that is `[]` or `true` is truthy in JavaScript yet renders
  as nothing.

## Model

| member | source | states |
|---|---|---|
| Classify.Severity.Name | backend/api/logs.php:142-147 | the tier written into an event is one of "low", "medium", "high", "critical" |
| Classify.NameInjective | backend/api/logs.php:142-147 | the four tiers have four distinct names |
| Classify.DetermineSeverity | backend/api/logs.php:142-147 | critical exactly for level ≥ 12, high exactly for 7..11, medium exactly for 4..6, low exactly below 4 (negatives included) |
| Classify.SeverityMonotone | backend/api/logs.php:142-147 | a higher level never gives a lower tier |
| Classify.SeverityBoundaries | backend/api/logs.php:142-147 | 12/11, 7/6 and 4/3 fall on either side of a threshold; 0 and -5 are low |
| Classify.EventTypeIsFirstMatch | backend/api/logs.php:129-140 | the if-chain equals a walk over the ordered keyword table on the lower-cased description |
| Classify.FirstMatchSpec | backend/api/logs.php:129-140 | for a table of distinct categories: category k is returned iff keyword k occurs and no earlier one does; the default iff none occurs |
| Classify.FirstMatchRange | backend/api/logs.php:129-140 | the table walk returns the default or one of the table's categories |
| Classify.KeywordsWellFormed | backend/api/logs.php:132-139 | the six categories are distinct and differ from "Security Event" |
| Classify.EventTypeFirstMatchWins | backend/api/logs.php:129-140 | the event type is keyword k's category iff the lower-cased description contains keyword k and none of the keywords checked before it; "Security Event" iff it contains none |
| Classify.SshBeforeLogin | backend/api/logs.php:134-135 | "ssh login failure" is classified "SSH Activity", not "Authentication" |
| Classify.MissingDescriptionIsSecurityEvent | backend/api/logs.php:129-139 | an absent description reads as "" and is classified "Security Event" |
| Strings.Lower | backend/api/logs.php:130 | lower-casing keeps the length, maps each character, and leaves no upper-case letter |
| Strings.LowerIdempotent | backend/api/logs.php:130 | lower-casing twice is lower-casing once |
| Strings.ContainsIff | backend/api/logs.php:132 | the substring test holds iff the pattern occurs at some position |
| Strings.NatDecimal | frontend/src/hooks/use-dashboard-data.tsx:120-121 | a count renders as at least one digit, digits only, without a leading zero |
| Strings.NatDecimalRoundTrip | frontend/src/hooks/use-dashboard-data.tsx:120-121 | reading the rendered digits back gives the count |
| Strings.DecimalInjective | frontend/src/hooks/use-dashboard-data.tsx:120-121 | different numbers render differently |
| Strings.PadStart | frontend/src/components/dashboard/ActivityOverviewChart.tsx:32 | `padStart` gives the longer of the text and the width, ends with the text, and is padded with the pad character |
| Strings.LeadingZero | frontend/src/components/dashboard/ActivityOverviewChart.tsx:32 | a leading zero does not change a digit string's value |
| PhpBuiltins.TrimLeftSpec | backend/api/logs.php:63 | the left trim drops exactly a run of trimmable characters |
| PhpBuiltins.TrimRightSpec | backend/api/logs.php:63 | the right trim drops exactly a run of trimmable characters |
| PhpBuiltins.TrimSpec | backend/api/logs.php:63 | `trim` keeps one contiguous piece, cuts only trimmable characters, and the piece neither starts nor ends with one |
| PhpBuiltins.TrimIdempotent | backend/api/logs.php:67 | trimming a trimmed string changes nothing |
| PhpBuiltins.Explode | backend/api/logs.php:63 | `explode` never returns an empty list |
| PhpBuiltins.ExplodePiecesHaveNoLineFeed | backend/api/logs.php:63 | no piece contains a line feed |
| PhpBuiltins.JoinExplode | backend/api/logs.php:63 | joining the pieces with line feeds gives the text back |
| PhpBuiltins.ExplodeJoin | backend/api/logs.php:63 | splitting joined line-feed-free pieces gives the pieces back |
| PhpBuiltins.ExplodeLine | backend/api/logs.php:63 | a text without line feed is one piece |
| PhpBuiltins.ExplodeLineThen | backend/api/logs.php:63 | a first line followed by a line feed splits off as the first piece |
| PhpBuiltins.SliceLast | backend/api/logs.php:66 | `array_slice($xs, -$n)` is a suffix: the last n items for n > 0, all items for n = 0, all but the first -n for n < 0 |
| PhpBuiltins.Reverse | backend/api/logs.php:88 | reversal keeps the length |
| PhpBuiltins.ReverseAt | backend/api/logs.php:88 | position k of the reversal holds position \|xs\|-1-k |
| WazuhAdapter.NormalizeDefaults | backend/api/logs.php:72-83 | every present field is copied (a present level also sets the tier, a present description also the event type); each `??` default: fresh id, the alert's own clock reading, "unknown" agent fields, source address via srcip then agent ip then "unknown", level 0 and tier low, "Unknown event" / "Security event detected" / "Security Event", the whole decoded alert kept as raw data |
| WazuhAdapter.EmptyDescriptionIsKept | backend/api/logs.php:82 | a present empty description stays empty |
| WazuhAdapter.FetchWazuhLogs | backend/api/logs.php:57-88 | the fetch returns exactly the specified reversed list of kept, normalized alerts of the window, and nothing when the fetch failed |
| WazuhAdapter.DecodeLines | backend/api/logs.php:66-86 | the loop over the window keeps, in line order, the normalized alert of each non-blank line that decodes |
| WazuhAdapter.CollectLength | backend/api/logs.php:66-86 | the loop keeps one event per contributing line, so never more than there are lines |
| WazuhAdapter.CollectSources | backend/api/logs.php:66-86 | every kept event comes from a contributing line, in line order |
| WazuhAdapter.CollectAllPresent | backend/api/logs.php:66-86 | when every line contributes, event k comes from line k |
| WazuhAdapter.FetchFailureIsEmpty | backend/api/logs.php:59-61 | a failed fetch gives an empty list |
| WazuhAdapter.WazuhLogsBounded | backend/api/logs.php:63-70 | for limit ≥ 1 at most `limit` events are returned |
| WazuhAdapter.WazuhLogsSources | backend/api/logs.php:63-88 | each event is the normalized alert of a non-blank, decodable line of the window, and earlier events come from later lines |
| WazuhAdapter.ZeroLimitReadsEverything | backend/api/logs.php:66 | a limit of 0 reads every line of the feed |
| WazuhAdapter.NewestFirst | backend/api/logs.php:88 | when all lines are kept, event k is the alert of line \|window\|-1-k |
| WazuhAdapter.ThreeAlertsTwoBlanks | backend/api/logs.php:63-88 | three alerts around two blank lines give three events, last line first |
| LogsEndpoint.EffectiveLimit | backend/api/logs.php:21 | the limit is the request's, 100 when absent, capped at 1000 and never above it, with no lower bound |
| LogsEndpoint.LimitExamples | backend/api/logs.php:21 | 5000 gives 1000, -3 stays -3, absent gives 100 |
| LogsEndpoint.PassThrough | backend/api/logs.php:101-107 | a failed fetch or a falsy decode gives [], otherwise the decoded list unchanged |
| LogsEndpoint.HandleRequest | backend/api/logs.php:9-37 | OPTIONS gets 200 with no body; other non-GET methods get 405 "Method not allowed"; GET fetches all three sources with the effective limit whatever `type` is, and total_count is the sum of the three lengths; a dead host-IDS feed gives an empty host-IDS list and a total of the other two lengths |
| LogsEndpoint.HostFeedOutage | backend/api/logs.php:59-61 | a dead host-IDS feed contributes an empty list at any limit |
| LogsEndpoint.HostContributionCapped | backend/api/logs.php:21 | for an effective limit of at least 1, the host-IDS list of a response never exceeds 1000 events |
| LogsEndpoint.HostContributionUncapped | backend/api/logs.php:63-88 | with limit 0 the host-IDS list holds one event per decodable line of the whole feed, so more than 1000 when there are more than 1000 such lines: there is no ceiling below 1 |
| Json.TruthinessAgreesExceptEmptyContainers | flask_api.py:151 | Python's and JavaScript's truth tests differ exactly on empty lists and empty dicts |
| Json.Get | flask_api.py:154 | `dict.get` finds a value exactly when the key is present, and it is the stored one |
| Json.Prop | frontend/src/components/dashboard/LogsTable.tsx:104 | property access gives the stored value of an object's key, otherwise undefined |
| Json.TextAgreesOnStringsAndNumbers | flask_api.py:161 | f-string and template-literal text agree on strings and integers, differ on null and on both booleans |
| FlaskApi.DerivedMessage | flask_api.py:150-167 | a truthy message is kept; the result is always truthy; without a message and raw_json the placeholder is used, and so it is whenever raw_json is not a text that decodes to a dict (the `json.loads` TypeError or the `.get` AttributeError is swallowed) |
| FlaskApi.FallbackPriority | flask_api.py:153-163 | for raw JSON decoding to a dict: its message, else its correlation_type, else the "Correlated events: s1 → s2" composite of two dict stages, else the placeholder |
| FlaskApi.StageNotDict | flask_api.py:151-163 | for any dict payload with no truthy message or correlation_type and two truthy stages that are not both dicts, `.get` on a non-dict stage raises; the error is swallowed and the placeholder used |
| FlaskApi.StagesWithoutAlerts | flask_api.py:159-161 | stages without wazuh_alert compose "Unknown event → Unknown event" |
| FlaskApi.UnparsableRawJson | flask_api.py:152-167 | raw JSON that does not parse leaves the placeholder |
| FlaskApi.ProcessCorrelatedLogs | flask_api.py:146-169 | one output row per input row, same order, only the message changed, to the derived message |
| FlaskApi.ProcessedRowsAreComplete | flask_api.py:147-169 | every processed row has a non-empty message and all other columns unchanged |
| FlaskApi.CriticalCount | flask_api.py:121 | 0 when the query returns no row, the critical column otherwise |
| LogsTable.AlertText | frontend/src/components/dashboard/LogsTable.tsx:109-110 | a falsy or missing wazuh_alert reads "Unknown event" |
| LogsTable.MessageCell | frontend/src/components/dashboard/LogsTable.tsx:98-119 | a truthy message is shown as-is; the shown value is always truthy; without message and raw_json the placeholder is shown, and so it is whenever raw_json is neither an object nor a text that parses to one (a parse error or `null.message` is caught, other values have no properties) |
| LogsTable.ShowMessage | frontend/src/components/dashboard/LogsTable.tsx:96-120 | the cell's step-by-step reassignment computes the specified message |
| LogsTable.FallbackPriority | frontend/src/components/dashboard/LogsTable.tsx:103-112 | for raw JSON that is an object or parses to one: its message, else correlation_type, else the composite of two truthy stages, else the placeholder |
| LogsTable.ParseErrorIsCaught | frontend/src/components/dashboard/LogsTable.tsx:113-119 | a parse error is caught and the placeholder shown |
| LogsTable.SeverityBadgeClass | frontend/src/components/dashboard/LogsTable.tsx:80-85 | distinct classes exactly for "critical", "high", "medium"; the muted class for every other value |
| LogsTable.AgentCell | frontend/src/components/dashboard/LogsTable.tsx:75 | a missing, null or empty agent id shows "-", any other is shown as-is |
| LogsTable.RenderRow | frontend/src/components/dashboard/LogsTable.tsx:63-120 | a row shows the log's id, source and severity, a non-empty agent cell, "Yes" exactly for correlated logs, and a truthy message |
| LogsTable.RenderTable | frontend/src/components/dashboard/LogsTable.tsx:58-123 | one row per log, in order |
| LogsTable.TableShowsEveryLog | frontend/src/components/dashboard/LogsTable.tsx:58-123 | every row keeps its log's id and shows a truthy message value and a non-empty agent cell |
| LogsTable.AlertTextAgrees | frontend/src/components/dashboard/LogsTable.tsx:109-110 | on an absent, non-empty string or non-zero number wazuh_alert the two copies write the same text |
| LogsTable.CopiesAgree | frontend/src/components/dashboard/LogsTable.tsx:98-119 | on rows of the usual shape the table shows exactly the message the Flask service derives |
| LogsTable.FallbacksAgree | frontend/src/components/dashboard/LogsTable.tsx:103-116 | on a JSON text that fails to parse or parses to a payload of the usual shape, the table's try block yields the same message as the service's |
| LogsTable.NullAlertDiverges | frontend/src/components/dashboard/LogsTable.tsx:109-111 | a null wazuh_alert: the service writes "None", the table "Unknown event" |
| LogsTable.StringStagesDiverge | frontend/src/components/dashboard/LogsTable.tsx:108-111 | string stages: the service falls back to the placeholder, the table composes two unknown events |
| LogsTable.DecodedRawJsonDiverges | frontend/src/components/dashboard/LogsTable.tsx:103 | an already-decoded raw_json: the service fails to parse it, the table reads its message |
| LogsTable.EmptyListMessageDiverges | frontend/src/components/dashboard/LogsTable.tsx:101 | an empty-list message: false for the service, shown as-is by the table |
| ActivityOverview.FindHourSpec | frontend/src/components/dashboard/ActivityOverviewChart.tsx:26-28 | `find` fails iff no item has the hour, and otherwise returns the first item that has it |
| ActivityOverview.FindHourSkips | frontend/src/components/dashboard/ActivityOverviewChart.tsx:26-28 | an item for another hour does not change the search, wherever it sits |
| ActivityOverview.SeriesValue | frontend/src/components/dashboard/ActivityOverviewChart.tsx:26-28 | a missing series gives 0; a value is 0 or truthy |
| ActivityOverview.SeriesValueSpec | frontend/src/components/dashboard/ActivityOverviewChart.tsx:26-28 | the value is the truthy count of the hour's first item, and 0 if there is none or its count is falsy |
| ActivityOverview.HourLabelShape | frontend/src/components/dashboard/ActivityOverviewChart.tsx:32 | a label is two digits and ":00", with a leading zero for one-digit hours |
| ActivityOverview.HourLabelRoundTrip | frontend/src/components/dashboard/ActivityOverviewChart.tsx:32 | the label's digits read back as the hour |
| ActivityOverview.HourLabelInjective | frontend/src/components/dashboard/ActivityOverviewChart.tsx:32 | different hours get different labels |
| ActivityOverview.HourLabelExamples | frontend/src/components/dashboard/ActivityOverviewChart.tsx:32 | 3 gives "03:00", 17 gives "17:00" |
| ActivityOverview.BucketAt | frontend/src/components/dashboard/ActivityOverviewChart.tsx:30-36 | the point for hour h has hour h, its label, and the three series values for h |
| ActivityOverview.Normalize | frontend/src/components/dashboard/ActivityOverviewChart.tsx:24-37 | exactly 24 points, point h being the point for hour h |
| ActivityOverview.HoursAscending | frontend/src/components/dashboard/ActivityOverviewChart.tsx:25-32 | hours ascend and labels are distinct |
| ActivityOverview.MissingSeriesIsZero | frontend/src/components/dashboard/ActivityOverviewChart.tsx:26-28 | a missing source array makes its series all zeros |
| ActivityOverview.OutOfRangeHoursIgnored | frontend/src/components/dashboard/ActivityOverviewChart.tsx:25-28 | an item whose hour is not one of 0..23 changes no point |
| ActivityOverview.ActivityChart.constructor | frontend/src/components/dashboard/ActivityOverviewChart.tsx:5-7 | no points, loading, no error |
| ActivityOverview.ActivityChart.BeginFetch | frontend/src/components/dashboard/ActivityOverviewChart.tsx:13-14 | loading, error cleared, points kept |
| ActivityOverview.ActivityChart.FinishFetch | frontend/src/components/dashboard/ActivityOverviewChart.tsx:17-45 | a good response replaces the points by the 24 buckets; a bad status records "HTTP error! status: N" and keeps the points; a thrown error records its message; loading ends |
| LogFilter.Filter | frontend/src/pages/NidsLogs.tsx:40-44 | filtering never lengthens the list |
| LogFilter.FilterMembership | frontend/src/pages/NidsLogs.tsx:40-44 | an item is kept iff it is in the list and matches |
| LogFilter.FilterPositions | frontend/src/pages/NidsLogs.tsx:40-44 | the kept items sit at ascending positions of the list, and every matching position is kept |
| LogFilter.FilterKeepsAll | frontend/src/pages/HidsLogs.tsx:88-95 | when every item matches nothing is dropped |
| LogFilter.FilterCongruent | frontend/src/pages/NidsLogs.tsx:40-44 | predicates agreeing on the list keep the same items |
| LogFilter.FilterCount | frontend/src/hooks/use-dashboard-data.tsx:106 | the number kept is the number of matching positions |
| LogFilter.FilterPrefix | frontend/src/hooks/use-dashboard-data.tsx:110 | filtering a prefix gives a prefix of the filtered list |
| NidsLogs.ReceivedLogs | frontend/src/pages/NidsLogs.tsx:27 | a response without logs gives the empty list |
| NidsLogs.AfterFetch | frontend/src/pages/NidsLogs.tsx:24-31 | a decoded response replaces the list; a failed fetch keeps it |
| NidsLogs.FilteredLogsSpec | frontend/src/pages/NidsLogs.tsx:40-44 | the shown logs are, in order, exactly those with a message containing the query ignoring case and the selected severity (any for "all") |
| NidsLogs.MissingMessageHidden | frontend/src/pages/NidsLogs.tsx:41-43 | a log without a message is never shown, even for an empty query |
| NidsLogs.SearchIgnoresCase | frontend/src/pages/NidsLogs.tsx:41 | the search result does not depend on the case of query or message |
| NidsLogs.EmptyQueryShowsLogsWithMessages | frontend/src/pages/NidsLogs.tsx:40-44 | empty query and "all" show exactly the logs that have a message |
| HidsLogs.FilteredLogsSpec | frontend/src/pages/HidsLogs.tsx:88-95 | the shown logs are, in order, exactly those whose host contains the query or whose description does ignoring case, with the selected severity and event type; never more than the total |
| HidsLogs.EmptyQueryMatchesAll | frontend/src/pages/HidsLogs.tsx:89-91 | an empty query matches every log |
| HidsLogs.NoFilterShowsAll | frontend/src/pages/HidsLogs.tsx:88-95 | empty query and both filters "all" show every log |
| MockNidsLogs.FilteredLogsSpec | src/pages/NidsLogs.tsx:95-103 | the shown logs are, in order, exactly those whose source, destination (if any) or case-folded description contains the query, with the selected severity and event type |
| MockNidsLogs.MissingDestinationNeverMatches | src/pages/NidsLogs.tsx:98 | without a destination a log matches exactly when its source or description does |
| MockNidsLogs.DestinationAloneMatches | src/pages/NidsLogs.tsx:96-99 | a destination can make a log match on its own, and a missing one cannot |
| MockNidsLogs.EmptyQueryMatchesAll | src/pages/NidsLogs.tsx:96-99 | an empty query matches every log |
| MockNidsLogs.NoFilterShowsAll | src/pages/NidsLogs.tsx:95-103 | empty query and both filters "all" show every log |
| DashboardData.DeriveStats | frontend/src/hooks/use-dashboard-data.tsx:103-122 | threats blocked is the number of logs, critical alerts never exceed it, total is `total` if truthy else 0, fixed agent and logs-change texts |
| DashboardData.DeriveStatsSpec | frontend/src/hooks/use-dashboard-data.tsx:106-121 | critical alerts count exactly the logs with severity "critical"; the captions carry the two figures |
| DashboardData.AlertsChangeInjective | frontend/src/hooks/use-dashboard-data.tsx:121 | the alerts caption determines the count it was made from |
| DashboardData.ThreatsChangeInjective | frontend/src/hooks/use-dashboard-data.tsx:120 | the threats caption determines the count it was made from |
| DashboardData.RecentLogs | frontend/src/hooks/use-dashboard-data.tsx:110 | the recent list is the prefix of at most 10 logs |
| DashboardData.RecentCriticalWithinFigure | frontend/src/hooks/use-dashboard-data.tsx:106-110 | the recent list never holds more critical logs than the critical figure counts |
| DashboardData.DashboardHook.constructor | frontend/src/hooks/use-dashboard-data.tsx:33-84 | the fixed initial figures and four placeholder logs, not loading, no error, agent connected |
| DashboardData.DashboardHook.BeginFetch | frontend/src/hooks/use-dashboard-data.tsx:89 | loading, error cleared, figures and logs kept |
| DashboardData.DashboardHook.ApplyOutcome | frontend/src/hooks/use-dashboard-data.tsx:94-136 | logs in a good response replace figures and recent logs; no logs, a bad status or a thrown error keep them; loading ends; no error is recorded |
| DashboardData.DashboardHook.Refresh | frontend/src/hooks/use-dashboard-data.tsx:87-137 | a whole fetch always ends not loading and without error, with new figures only for a good response with logs |

## Left out

- Network fetches, timeouts, `setInterval` refreshes, React effects and rendering. Fetched bodies and decoded payloads are parameters.
- MySQL access and the SQL queries. The rows the correlated-log query returns are the input of `FlaskApi.ProcessCorrelatedLogs`, and the critical-count row is the input of `FlaskApi.CriticalCount`.
- `json_decode`, `json.loads`, `JSON.parse`, `uniqid()`, `date('c')` and Python's `repr` of containers are parameters. The agreement lemma assumes both front ends use the same JSON decoder.
- The `(int)` cast of the `limit` query string: the limit arrives already converted.
- LogsEndpoint.PassThrough: a network-IDS or correlation body that decodes to a JSON object becomes a PHP array; it is passed through as it is and `count()` gives its number of keys in `total_count`. The model's decoder yields a list or nothing, so object bodies are not modelled. A body that decodes to a truthy scalar makes `count()` throw a TypeError, which the `catch (Exception $e)` does not catch; that path is not modelled either.
- The endpoint's 500 response: nothing in the modelled steps throws, so that path is not reachable in the model.
- Lower-casing covers ASCII letters only (`strtolower`, `toLowerCase`).
- JSON numbers are integers. Floats and their text forms are not modelled.
- LogsEndpoint.HostContributionCapped: the 1000 ceiling is stated only for an effective limit of at least 1, because the code has no lower clamp: a limit of 0 or below reads the whole feed or all but its first lines (`LogsEndpoint.HostContributionUncapped`).
- LogsTable.TableShowsEveryLog: a truthy message value is not always visible text: `[]` and `true` are truthy in JavaScript but React renders them as nothing, so a row whose message or fallback is one of those shows an empty cell, contrary to the design's promise of a non-empty message.
- Json.TextAgreesOnStringsAndNumbers: `JsText` writes every integer in decimal, but JavaScript numbers are doubles: `JSON.parse` rounds integers beyond 2^53 and a template literal writes integers of 10^21 and above in exponent form ("1e+21"), while Python keeps and writes the exact integer. The agreement holds for the real program only for integers of magnitude below 2^53.
- LogsTable.AlertTextAgrees: holds for the real program only for a numeric wazuh_alert of magnitude below 2^53, for the same reason.
- LogsTable.CopiesAgree: holds for the real program only when every number the two texts write has magnitude below 2^53, for the same reason.
- WazuhAdapter.Normalize: the fields it reads are typed narrowly. Agent name and address, rule description, id, timestamp and addresses are strings, and the rule level is an integer. A decoded alert that holds another kind of value there (a numeric agent name, a string or float `rule.level`, which PHP would compare with `>=` by its own loose rules) cannot be represented. The decoder is trusted to make the projected fields agree with the `raw` value it returns.
- NidsLogs.MatchesSearch: a `message` that is neither a string nor absent makes `toLowerCase` throw during rendering; the model only has string or absent messages.
- The table's `severityColors` map is declared but never read; the badge uses only its own class chain (`LogsTable.SeverityBadgeClass`), so the map is not modelled.
- LogsTable.RenderRow: the timestamp cell (`new Date(...).toISOString()`) is not modelled. A message that is an object would make React throw; the model returns the value that would be rendered.
- ActivityOverview.FinishFetch: a payload whose series is not an array (so `.find` throws) is modelled as a thrown error, not as its own case. Items are objects with `hour` and `count`.
- The static mock data of the two mock-data log pages is not modelled; their filters are proved for any list of logs.
- DashboardData.DashboardHook.constructor: the placeholder logs' timestamps come from the clock and are left out; the hook computes `highAlerts` and never uses it.
- LogsEndpoint.HandleRequest: the upstream caps the snort and correlation lists by the limit it is sent; this code does not, so no bound is stated for them.
