/**
 * The host-IDS adapter of the log endpoint (`fetchWazuhLogs`): the alert
 * feed is newline-delimited JSON; the adapter keeps the last `limit`
 * lines, skips blank and undecodable ones, fills in default fields and
 * returns the alerts newest first.
 *
 * The fetch, `json_decode`, `uniqid()` and `date('c')` are parameters:
 * `body` is the fetched text (None when the fetch failed), `decode` maps a
 * line to the decoded alert (None when it does not decode to a truthy
 * value), and `freshId(i)` and `clock(i)` are what `uniqid()` and
 * `date('c')` return while the alert on line `i` of the window is built.
 */
module WazuhAdapter {
  import opened Optional
  import opened PhpBuiltins
  import opened Classify
  import opened Json

  /**
   * A decoded alert: the whole decoded value, and the fields the adapter
   * reads from it (None is absent or null).
   */
  datatype Alert = Alert(
    raw: Json,
    id: Option<string>,
    timestamp: Option<string>,
    agentName: Option<string>,
    agentIp: Option<string>,
    ruleLevel: Option<int>,
    ruleDescription: Option<string>,
    srcIp: Option<string>,
    dstIp: Option<string>)

  /** One normalized host-IDS event, as placed in `wazuh_logs`. */
  datatype WazuhEvent = WazuhEvent(
    id: string,
    timestamp: string,
    agentName: string,
    agentIp: string,
    ruleLevel: int,
    ruleDescription: string,
    sourceIp: string,
    destIp: string,
    eventType: string,
    severity: Severity,
    description: string,
    rawData: Json)

  /** The field mapping of one decoded alert, with the `??` defaults. */
  function Normalize(a: Alert, freshId: string, now: string): WazuhEvent {
    WazuhEvent(
      id := a.id.GetOr(freshId),
      timestamp := a.timestamp.GetOr(now),
      agentName := a.agentName.GetOr("unknown"),
      agentIp := a.agentIp.GetOr("unknown"),
      ruleLevel := a.ruleLevel.GetOr(0),
      ruleDescription := a.ruleDescription.GetOr("Unknown event"),
      sourceIp := a.srcIp.GetOr(a.agentIp.GetOr("unknown")),
      destIp := a.dstIp.GetOr("unknown"),
      eventType := DetermineEventType(a.ruleDescription),
      severity := DetermineSeverity(a.ruleLevel.GetOr(0)),
      description := a.ruleDescription.GetOr("Security event detected"),
      rawData := a.raw)
  }

  /**
   * The defaults of the field mapping: present fields are copied, absent
   * ones get their fallback; the source address falls back to the agent's
   * address before "unknown"; a missing level is level 0 and so "low"; the
   * raw alert is kept unchanged.
   */
  lemma NormalizeDefaults(a: Alert, freshId: string, now: string)
    ensures var e := Normalize(a, freshId, now);
      && (a.id == None ==> e.id == freshId)
      && (a.timestamp == None ==> e.timestamp == now)
      && (a.agentName == None ==> e.agentName == "unknown")
      && (a.agentIp == None ==> e.agentIp == "unknown")
      && (a.srcIp == None && a.agentIp == None ==> e.sourceIp == "unknown")
      && (a.srcIp == None && a.agentIp != None ==> e.sourceIp == a.agentIp.value)
      && (a.srcIp != None ==> e.sourceIp == a.srcIp.value)
      && (a.dstIp == None ==> e.destIp == "unknown")
      && (a.ruleLevel == None ==> e.ruleLevel == 0 && e.severity == Low)
      && (a.ruleDescription == None ==>
            && e.ruleDescription == "Unknown event"
            && e.description == "Security event detected"
            && e.eventType == DefaultEventType)
      && (a.id.Some? ==> e.id == a.id.value)
      && (a.timestamp.Some? ==> e.timestamp == a.timestamp.value)
      && (a.agentName.Some? ==> e.agentName == a.agentName.value)
      && (a.agentIp.Some? ==> e.agentIp == a.agentIp.value)
      && (a.dstIp.Some? ==> e.destIp == a.dstIp.value)
      && (a.ruleLevel.Some? ==>
            e.ruleLevel == a.ruleLevel.value && e.severity == DetermineSeverity(a.ruleLevel.value))
      && (a.ruleDescription.Some? ==>
            && e.ruleDescription == a.ruleDescription.value
            && e.description == a.ruleDescription.value
            && e.eventType == DetermineEventType(a.ruleDescription))
      && e.rawData == a.raw
  {
    if a.ruleDescription == None {
      MissingDescriptionIsSecurityEvent();
    }
  }

  /**
   * The only fallback is for an absent description: a present but empty
   * description stays empty.
   */
  lemma EmptyDescriptionIsKept(a: Alert, freshId: string, now: string)
    requires a.ruleDescription == Some("")
    ensures Normalize(a, freshId, now).description == ""
  {
  }

  /**
   * What one line of the window contributes: nothing when it is blank after
   * trimming (`empty(trim($line))`) or does not decode to a truthy value,
   * otherwise the normalized alert, whose generated id is `freshId(i)`.
   */
  function LineEvent(line: string, i: nat, decode: string -> Option<Alert>, clock: nat -> string,
                     freshId: nat -> string): Option<WazuhEvent>
  {
    if IsEmptyString(Trim(line)) then None
    else match decode(line)
      case None => None
      case Some(a) => Some(Normalize(a, freshId(i), clock(i)))
  }

  function Step(decode: string -> Option<Alert>, clock: nat -> string, freshId: nat -> string)
    : (string, nat) -> Option<WazuhEvent>
  {
    (line: string, i: nat) => LineEvent(line, i, decode, clock, freshId)
  }

  /**
   * The loop's shape: item `i` of `xs` contributes `f(xs[i], i)` when that
   * is present, and the contributions keep the order of the items.
   */
  function Collect<A, B>(xs: seq<A>, f: (A, nat) -> Option<B>): seq<B>
    decreases |xs|
  {
    if xs == [] then []
    else
      var i := |xs| - 1;
      match f(xs[i], i)
      case None => Collect(xs[..i], f)
      case Some(b) => Collect(xs[..i], f) + [b]
  }

  /** The window of lines the adapter reads: the last `limit` lines of the trimmed body. */
  function Window(data: string, limit: int): seq<string> {
    SliceLast(Explode(Trim(data)), limit)
  }

  /** What `fetchWazuhLogs($limit)` returns, as a function of the fetched body. */
  function WazuhLogs(body: Option<string>, limit: int, decode: string -> Option<Alert>,
                     clock: nat -> string, freshId: nat -> string): seq<WazuhEvent>
  {
    match body
    case None => []
    case Some(data) => Reverse(Collect(Window(data, limit), Step(decode, clock, freshId)))
  }

  /** `fetchWazuhLogs`: read the window of the fetched body, decode it, newest first. */
  method FetchWazuhLogs(body: Option<string>, limit: int, decode: string -> Option<Alert>,
                        clock: nat -> string, freshId: nat -> string)
    returns (events: seq<WazuhEvent>)
    ensures events == WazuhLogs(body, limit, decode, clock, freshId)
  {
    if body == None {
      return [];
    }
    var window := Window(body.value, limit);
    var alerts := DecodeLines(window, decode, clock, freshId);
    events := Reverse(alerts);
  }

  /**
   * The adapter's `foreach` over the window: skip a blank line, decode the
   * others, and append the normalized alert of each line that decodes.
   */
  method DecodeLines(window: seq<string>, decode: string -> Option<Alert>, clock: nat -> string,
                     freshId: nat -> string)
    returns (alerts: seq<WazuhEvent>)
    ensures alerts == Collect(window, Step(decode, clock, freshId))
  {
    var step := Step(decode, clock, freshId);
    alerts := [];
    var i := 0;
    while i < |window|
      invariant 0 <= i <= |window|
      invariant alerts == Collect(window[..i], step)
    {
      var line := window[i];
      CollectNext(window, step, i);
      assert step(line, i) == LineEvent(line, i, decode, clock, freshId);
      if !IsEmptyString(Trim(line)) {
        var alert := decode(line);
        if alert.Some? {
          alerts := alerts + [Normalize(alert.value, freshId(i), clock(i))];
        }
      }
      i := i + 1;
    }
    assert window[..|window|] == window;
  }

  /** Taking one more item adds its contribution, when present, at the end. */
  lemma CollectNext<A, B>(xs: seq<A>, f: (A, nat) -> Option<B>, i: nat)
    requires i < |xs|
    ensures Collect(xs[..i + 1], f)
              == Collect(xs[..i], f) + (if f(xs[i], i).Some? then [f(xs[i], i).value] else [])
  {
    assert xs[..i + 1][..i] == xs[..i];
  }

  /** The number of items that contribute. */
  function CountPresent<A, B>(xs: seq<A>, f: (A, nat) -> Option<B>): nat
    decreases |xs|
  {
    if xs == [] then 0
    else CountPresent(xs[..|xs| - 1], f) + (if f(xs[|xs| - 1], |xs| - 1).Some? then 1 else 0)
  }

  /** One result per contributing item, so never more results than items. */
  lemma {:induction false} CollectLength<A, B>(xs: seq<A>, f: (A, nat) -> Option<B>)
    ensures |Collect(xs, f)| == CountPresent(xs, f) <= |xs|
    decreases |xs|
  {
    if xs != [] {
      CollectLength(xs[..|xs| - 1], f);
    }
  }

  /**
   * Every result is the contribution of some item, and the results keep
   * the order of their items: `positions` lists, increasing, the items
   * they came from.
   */
  lemma {:induction false} CollectSources<A, B>(xs: seq<A>, f: (A, nat) -> Option<B>)
    returns (positions: seq<nat>)
    ensures |positions| == |Collect(xs, f)|
    ensures forall k :: 0 <= k < |positions| ==>
              positions[k] < |xs| && f(xs[positions[k]], positions[k]) == Some(Collect(xs, f)[k])
    ensures forall k, m :: 0 <= k < m < |positions| ==> positions[k] < positions[m]
    decreases |xs|
  {
    if xs == [] {
      positions := [];
    } else {
      var i := |xs| - 1;
      var earlier := CollectSources(xs[..i], f);
      assert forall k :: 0 <= k < |earlier| ==> xs[..i][earlier[k]] == xs[earlier[k]];
      match f(xs[i], i)
      case None =>
        positions := earlier;
      case Some(b) =>
        positions := earlier + [i];
    }
  }

  /** When every item contributes, result `k` is the contribution of item `k`. */
  lemma {:induction false} CollectAllPresent<A, B>(xs: seq<A>, f: (A, nat) -> Option<B>, k: nat)
    requires forall j :: 0 <= j < |xs| ==> f(xs[j], j).Some?
    requires k < |xs|
    ensures |Collect(xs, f)| == |xs|
    ensures Some(Collect(xs, f)[k]) == f(xs[k], k)
    decreases |xs|
  {
    var i := |xs| - 1;
    assert forall j :: 0 <= j < i ==> xs[..i][j] == xs[j];
    if i > 0 {
      CollectAllPresent(xs[..i], f, if k < i then k else 0);
    }
  }

  /** A failed fetch yields an empty list, never an error. */
  lemma FetchFailureIsEmpty(limit: int, decode: string -> Option<Alert>, clock: nat -> string, freshId: nat -> string)
    ensures WazuhLogs(None, limit, decode, clock, freshId) == []
  {
  }

  /** For a positive limit the adapter returns at most `limit` events. */
  lemma WazuhLogsBounded(body: Option<string>, limit: int, decode: string -> Option<Alert>,
                         clock: nat -> string, freshId: nat -> string)
    requires limit >= 1
    ensures |WazuhLogs(body, limit, decode, clock, freshId)| <= limit
  {
    if body.Some? {
      CollectLength(Window(body.value, limit), Step(decode, clock, freshId));
    }
  }

  /**
   * Every event is the normalized alert of a kept line of the window, and
   * the events come in reverse line order: an event that comes earlier in
   * the result comes from a later line.
   */
  lemma WazuhLogsSources(data: string, limit: int, decode: string -> Option<Alert>,
                         clock: nat -> string, freshId: nat -> string)
    returns (lines: seq<nat>)
    ensures var es := WazuhLogs(Some(data), limit, decode, clock, freshId);
      var w := Window(data, limit);
      && |lines| == |es|
      && (forall k :: 0 <= k < |lines| ==>
            && lines[k] < |w|
            && !IsEmptyString(Trim(w[lines[k]]))
            && decode(w[lines[k]]).Some?
            && es[k] == Normalize(decode(w[lines[k]]).value, freshId(lines[k]), clock(lines[k])))
      && (forall k, m :: 0 <= k < m < |lines| ==> lines[k] > lines[m])
  {
    var w := Window(data, limit);
    var step := Step(decode, clock, freshId);
    lines := ReversedSources(w, step);
    forall k | 0 <= k < |lines|
      ensures var e := WazuhLogs(Some(data), limit, decode, clock, freshId)[k];
        && !IsEmptyString(Trim(w[lines[k]]))
        && decode(w[lines[k]]).Some?
        && e == Normalize(decode(w[lines[k]]).value, freshId(lines[k]), clock(lines[k]))
    {
      LineEventSome(w[lines[k]], lines[k], decode, clock, freshId);
    }
  }

  /** The item positions behind the reversed contributions, descending. */
  lemma ReversedSources<A, B>(xs: seq<A>, f: (A, nat) -> Option<B>) returns (lines: seq<nat>)
    ensures |lines| == |Collect(xs, f)|
    ensures forall k :: 0 <= k < |lines| ==>
              lines[k] < |xs| && f(xs[lines[k]], lines[k]) == Some(Reverse(Collect(xs, f))[k])
    ensures forall k, m :: 0 <= k < m < |lines| ==> lines[k] > lines[m]
  {
    var c := Collect(xs, f);
    var positions := CollectSources(xs, f);
    lines := seq(|positions|, k requires 0 <= k < |positions| => positions[|positions| - 1 - k]);
    forall k | 0 <= k < |lines|
      ensures lines[k] < |xs| && f(xs[lines[k]], lines[k]) == Some(Reverse(c)[k])
    {
      ReverseAt(c, k);
    }
  }

  /** A line that contributes is non-blank and decodes, and contributes its normalized alert. */
  lemma LineEventSome(line: string, i: nat, decode: string -> Option<Alert>, clock: nat -> string, freshId: nat -> string)
    ensures LineEvent(line, i, decode, clock, freshId).Some? ==>
              && !IsEmptyString(Trim(line))
              && decode(line).Some?
              && LineEvent(line, i, decode, clock, freshId).value == Normalize(decode(line).value, freshId(i), clock(i))
  {
  }

  /**
   * With no lower clamp on the limit, a limit of 0 reads every line of the
   * feed: the window is the whole trimmed body.
   */
  lemma ZeroLimitReadsEverything(data: string)
    ensures Window(data, 0) == Explode(Trim(data))
  {
  }

  /**
   * Newest first: when every line of the window is kept, event `k` of the
   * result is the alert of line `|window| - 1 - k`, so the last line comes first.
   */
  lemma NewestFirst(data: string, limit: int, decode: string -> Option<Alert>,
                    clock: nat -> string, freshId: nat -> string, k: nat)
    requires forall j :: 0 <= j < |Window(data, limit)| ==>
               LineEvent(Window(data, limit)[j], j, decode, clock, freshId).Some?
    requires k < |Window(data, limit)|
    ensures var w := Window(data, limit);
      && |WazuhLogs(Some(data), limit, decode, clock, freshId)| == |w|
      && Some(WazuhLogs(Some(data), limit, decode, clock, freshId)[k])
           == LineEvent(w[|w| - 1 - k], |w| - 1 - k, decode, clock, freshId)
  {
    var w := Window(data, limit);
    var step := Step(decode, clock, freshId);
    assert forall j :: 0 <= j < |w| ==> step(w[j], j).Some?;
    ReversedAllPresent(w, step, k);
  }

  /** When every item contributes, reversed result `k` is the contribution of item `|xs| - 1 - k`. */
  lemma ReversedAllPresent<A, B>(xs: seq<A>, f: (A, nat) -> Option<B>, k: nat)
    requires forall j :: 0 <= j < |xs| ==> f(xs[j], j).Some?
    requires k < |xs|
    ensures |Reverse(Collect(xs, f))| == |xs|
    ensures Some(Reverse(Collect(xs, f))[k]) == f(xs[|xs| - 1 - k], |xs| - 1 - k)
  {
    CollectAllPresent(xs, f, |xs| - 1 - k);
    ReverseAt(Collect(xs, f), k);
  }

  /**
   * Three alert lines around two blank lines give exactly three events,
   * the last line's alert first.
   */
  lemma ThreeAlertsTwoBlanks(a: string, b: string, c: string, decode: string -> Option<Alert>,
                             clock: nat -> string, freshId: nat -> string)
    requires NoLineFeed(a) && NoLineFeed(b) && NoLineFeed(c)
    requires !IsEmptyString(Trim(a)) && !IsEmptyString(Trim(b)) && !IsEmptyString(Trim(c))
    requires decode(a).Some? && decode(b).Some? && decode(c).Some?
    requires Trim(a + "\n\n" + b + "\n \n" + c) == a + "\n\n" + b + "\n \n" + c
    ensures var es := WazuhLogs(Some(a + "\n\n" + b + "\n \n" + c), 5, decode, clock, freshId);
      && |es| == 3
      && es[0] == Normalize(decode(c).value, freshId(4), clock(4))
      && es[1] == Normalize(decode(b).value, freshId(2), clock(2))
      && es[2] == Normalize(decode(a).value, freshId(0), clock(0))
  {
    var data := a + "\n\n" + b + "\n \n" + c;
    var lines := [a, "", b, " ", c];
    FiveLineWindow(a, b, c);
    var step := Step(decode, clock, freshId);
    assert step("", 1) == None;
    assert step(" ", 3) == None by {
      assert Trim(" ") == "";
    }
    var ea := Normalize(decode(a).value, freshId(0), clock(0));
    var eb := Normalize(decode(b).value, freshId(2), clock(2));
    var ec := Normalize(decode(c).value, freshId(4), clock(4));
    assert step(a, 0) == Some(ea) && step(b, 2) == Some(eb) && step(c, 4) == Some(ec);
    CollectFive(lines, step, ea, eb, ec);
    var es := [ea, eb, ec];
    ReverseAt(es, 0);
    ReverseAt(es, 1);
    ReverseAt(es, 2);
  }

  lemma FiveLineWindow(a: string, b: string, c: string)
    requires NoLineFeed(a) && NoLineFeed(b) && NoLineFeed(c)
    requires Trim(a + "\n\n" + b + "\n \n" + c) == a + "\n\n" + b + "\n \n" + c
    ensures Window(a + "\n\n" + b + "\n \n" + c, 5) == [a, "", b, " ", c]
  {
    var lines := [a, "", b, " ", c];
    assert Join(lines) == a + "\n\n" + b + "\n \n" + c by {
      assert Join(lines[4..]) == c;
      assert Join(lines[3..]) == " " + "\n" + c;
      assert Join(lines[2..]) == b + "\n" + " " + "\n" + c;
      assert Join(lines[1..]) == "" + "\n" + b + "\n" + " " + "\n" + c;
    }
    assert forall k :: 0 <= k < |lines| ==> NoLineFeed(lines[k]);
    ExplodeJoin(lines);
  }

  lemma CollectFive<A, B>(xs: seq<A>, f: (A, nat) -> Option<B>, b0: B, b2: B, b4: B)
    requires |xs| == 5
    requires f(xs[0], 0) == Some(b0) && f(xs[1], 1) == None && f(xs[2], 2) == Some(b2)
    requires f(xs[3], 3) == None && f(xs[4], 4) == Some(b4)
    ensures Collect(xs, f) == [b0, b2, b4]
  {
    assert xs[..4][..3] == xs[..3] && xs[..3][..2] == xs[..2];
    assert xs[..2][..1] == xs[..1] && xs[..1][..0] == [];
    assert Collect(xs[..1], f) == [b0];
    assert Collect(xs[..2], f) == [b0];
    assert Collect(xs[..3], f) == [b0, b2];
    assert Collect(xs[..4], f) == [b0, b2];
  }
}
