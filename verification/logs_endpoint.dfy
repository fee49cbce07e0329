/**
 * The log aggregation endpoint: the method check, the effective limit, the
 * network-IDS and correlation sources (decoded JSON passed through) and the
 * response that puts the three source lists side by side with their total.
 *
 * Everything the endpoint gets from outside is in `Upstreams`: the bodies
 * the three fetches return (None for a failed fetch; the network-IDS and
 * correlation endpoints are asked for `limit` items, so their bodies are
 * functions of it), the JSON decoders, `uniqid()`, the `date('c')` readings
 * taken while the host-IDS alerts are built (`clock`) and the one taken for
 * the response (`now`).
 */
module LogsEndpoint {
  import opened Optional
  import opened PhpBuiltins
  import opened WazuhAdapter

  const DefaultLimit := 100
  const MaxLimit := 1000

  /**
   * `min((int)($_GET['limit'] ?? 100), 1000)`: the requested limit (already
   * converted to an integer) capped from above only.
   */
  function EffectiveLimit(requested: Option<int>): (limit: int)
    ensures limit <= MaxLimit
    ensures requested == None ==> limit == DefaultLimit
    ensures requested.Some? && requested.value <= MaxLimit ==> limit == requested.value
    ensures requested.Some? && requested.value > MaxLimit ==> limit == MaxLimit
  {
    var n := requested.GetOr(DefaultLimit);
    if n < MaxLimit then n else MaxLimit
  }

  /** A client asking for 5000 gets 1000; one asking for -3 keeps -3: there is no lower clamp. */
  lemma LimitExamples()
    ensures EffectiveLimit(Some(5000)) == 1000
    ensures EffectiveLimit(Some(-3)) == -3
    ensures EffectiveLimit(None) == 100
  {
  }

  /**
   * `fetchSnortLogs` / `fetchCorrelationLogs` after the fetch: a failed fetch
   * and a body that decodes to a falsy value (`?: []`) both give the empty
   * list; otherwise the decoded list is passed through unchanged.
   */
  function PassThrough<T>(body: Option<string>, decode: string -> Option<seq<T>>): (items: seq<T>)
    ensures body == None ==> items == []
    ensures body.Some? && decode(body.value) == None ==> items == []
    ensures body.Some? && decode(body.value).Some? ==> items == decode(body.value).value
  {
    match body
    case None => []
    case Some(text) => decode(text).GetOr([])
  }

  datatype Upstreams<S, C> = Upstreams(
    wazuhBody: Option<string>,
    snortBody: int -> Option<string>,
    correlationBody: int -> Option<string>,
    decodeAlert: string -> Option<Alert>,
    decodeSnort: string -> Option<seq<S>>,
    decodeCorrelation: string -> Option<seq<C>>,
    clock: nat -> string,
    freshId: nat -> string,
    now: string)

  datatype Body<S, C> =
    | ErrorBody(error: string)
    | LogsBody(wazuhLogs: seq<WazuhEvent>, snortLogs: seq<S>, correlationLogs: seq<C>,
               totalCount: int, timestamp: string)

  /** An HTTP status with an optional JSON body. */
  datatype Response<S, C> = Response(status: int, body: Option<Body<S, C>>)

  /**
   * The request handler. OPTIONS is answered 200 with no body; any other
   * method but GET is refused with 405 before anything is fetched; a GET
   * fetches all three sources with the effective limit, whatever `type` says
   * (`typeParam` is read by the source and never used), and reports
   * `total_count` as the sum of the three list lengths.
   */
  method HandleRequest<S, C>(requestMethod: string, limitParam: Option<int>, typeParam: Option<string>,
                             up: Upstreams<S, C>)
    returns (resp: Response<S, C>)
    ensures requestMethod == "OPTIONS" ==> resp.status == 200 && resp.body.None?
    ensures requestMethod != "OPTIONS" && requestMethod != "GET" ==>
              resp.status == 405 && resp.body.Some? && resp.body.value.ErrorBody?
              && resp.body.value.error == "Method not allowed"
    ensures requestMethod == "GET" ==>
              && resp.status == 200 && resp.body.Some? && resp.body.value.LogsBody?
              && var b := resp.body.value;
                 var limit := EffectiveLimit(limitParam);
                 && b.wazuhLogs == WazuhLogs(up.wazuhBody, limit, up.decodeAlert, up.clock, up.freshId)
                 && b.snortLogs == PassThrough(up.snortBody(limit), up.decodeSnort)
                 && b.correlationLogs == PassThrough(up.correlationBody(limit), up.decodeCorrelation)
                 && b.totalCount == |b.wazuhLogs| + |b.snortLogs| + |b.correlationLogs|
                 && b.timestamp == up.now
                 && (up.wazuhBody == None ==>
                       b.wazuhLogs == [] && b.totalCount == |b.snortLogs| + |b.correlationLogs|)
  {
    if requestMethod == "OPTIONS" {
      return Response(200, None);
    }
    if requestMethod != "GET" {
      return Response(405, Some(ErrorBody("Method not allowed")));
    }
    var logType := typeParam.GetOr("all");
    var limit := EffectiveLimit(limitParam);
    var wazuhLogs := FetchWazuhLogs(up.wazuhBody, limit, up.decodeAlert, up.clock, up.freshId);
    var snortLogs := PassThrough(up.snortBody(limit), up.decodeSnort);
    var correlationLogs := PassThrough(up.correlationBody(limit), up.decodeCorrelation);
    var total := |wazuhLogs| + |snortLogs| + |correlationLogs|;
    resp := Response(200, Some(LogsBody(wazuhLogs, snortLogs, correlationLogs, total, up.now)));
  }

  /**
   * A dead host-IDS feed gives an empty host-IDS list whatever the limit;
   * `HandleRequest` states that the total then counts the other two sources.
   */
  lemma HostFeedOutage<S, C>(up: Upstreams<S, C>, limit: int)
    requires up.wazuhBody == None
    ensures WazuhLogs(up.wazuhBody, limit, up.decodeAlert, up.clock, up.freshId) == []
  {
  }

  /** For an effective limit of at least 1, the host-IDS list of a GET holds at most 1000 events. */
  lemma HostContributionCapped(requested: Option<int>, body: Option<string>,
                               decode: string -> Option<Alert>, clock: nat -> string, freshId: nat -> string)
    requires EffectiveLimit(requested) >= 1
    ensures |WazuhLogs(body, EffectiveLimit(requested), decode, clock, freshId)| <= MaxLimit
  {
    WazuhLogsBounded(body, EffectiveLimit(requested), decode, clock, freshId);
  }

  /**
   * Without a lower clamp, `?limit=0` reads the whole feed: the host-IDS list
   * holds one event per contributing line of the feed, however many there
   * are, so a feed with more than 1000 such lines gives more than 1000 events.
   */
  lemma HostContributionUncapped(data: string, decode: string -> Option<Alert>,
                                 clock: nat -> string, freshId: nat -> string)
    ensures EffectiveLimit(Some(0)) == 0
    ensures |WazuhLogs(Some(data), EffectiveLimit(Some(0)), decode, clock, freshId)|
              == CountPresent(Explode(Trim(data)), Step(decode, clock, freshId))
    ensures CountPresent(Explode(Trim(data)), Step(decode, clock, freshId)) > MaxLimit ==>
              |WazuhLogs(Some(data), EffectiveLimit(Some(0)), decode, clock, freshId)| > MaxLimit
  {
    ZeroLimitReadsEverything(data);
    CollectLength(Explode(Trim(data)), Step(decode, clock, freshId));
  }
}
