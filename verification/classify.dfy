/**
 * The two classifiers of the log endpoint: the severity tier of a numeric
 * rule level (`determineSeverity`) and the event category inferred from a
 * rule description by keyword (`determineEventType`).
 */
module Classify {
  import opened Optional
  import opened Strings

  datatype Severity = Low | Medium | High | Critical {

    /** The tier as it appears in the response. */
    function Name(): (n: string)
      ensures n in {"low", "medium", "high", "critical"}
    {
      match this
      case Low => "low"
      case Medium => "medium"
      case High => "high"
      case Critical => "critical"
    }

    /** Position of the tier in the order low < medium < high < critical. */
    function Rank(): (k: nat)
      ensures k < 4
    {
      match this
      case Low => 0
      case Medium => 1
      case High => 2
      case Critical => 3
    }
  }

  /** The four tiers have four distinct names. */
  lemma NameInjective(a: Severity, b: Severity)
    requires a.Name() == b.Name()
    ensures a == b
  {
  }

  /** `determineSeverity($level)`: thresholds 12, 7 and 4, each inclusive. */
  function DetermineSeverity(level: int): (s: Severity)
    ensures s == Critical <==> level >= 12
    ensures s == High <==> 7 <= level < 12
    ensures s == Medium <==> 4 <= level < 7
    ensures s == Low <==> level < 4
  {
    if level >= 12 then Critical
    else if level >= 7 then High
    else if level >= 4 then Medium
    else Low
  }

  /** A higher level never gives a lower tier. */
  lemma SeverityMonotone(a: int, b: int)
    requires a <= b
    ensures DetermineSeverity(a).Rank() <= DetermineSeverity(b).Rank()
  {
  }

  /** The boundary values named by the endpoint's contract. */
  lemma SeverityBoundaries()
    ensures DetermineSeverity(12) == Critical && DetermineSeverity(11) == High
    ensures DetermineSeverity(7) == High && DetermineSeverity(6) == Medium
    ensures DetermineSeverity(4) == Medium && DetermineSeverity(3) == Low
    ensures DetermineSeverity(-5) == Low && DetermineSeverity(0) == Low
  {
  }

  /** The keyword table in the order the checks are made, with the category each selects. */
  const Keywords: seq<(string, string)> := [
    ("snort", "Snort IDS"),
    ("correlation", "Correlation"),
    ("ssh", "SSH Activity"),
    ("login", "Authentication"),
    ("scan", "Port Scan"),
    ("attack", "Attack")
  ]

  const DefaultEventType := "Security Event"

  /**
   * A reference reading of the keyword rule: walk the table and take the
   * category of the first keyword found in `text`.
   */
  function FirstMatch(table: seq<(string, string)>, text: string): string
    decreases |table|
  {
    if table == [] then DefaultEventType
    else if Contains(text, table[0].0) then table[0].1
    else FirstMatch(table[1..], text)
  }

  /**
   * `determineEventType($alert)`: the rule description (absent reads as "")
   * is lower-cased and the keywords are tried in a fixed order.
   */
  function DetermineEventType(description: Option<string>): string {
    var text := Lower(description.GetOr(""));
    if Contains(text, "snort") then "Snort IDS"
    else if Contains(text, "correlation") then "Correlation"
    else if Contains(text, "ssh") then "SSH Activity"
    else if Contains(text, "login") then "Authentication"
    else if Contains(text, "scan") then "Port Scan"
    else if Contains(text, "attack") then "Attack"
    else DefaultEventType
  }

  /** The if-chain agrees with the table walk on every description. */
  lemma EventTypeIsFirstMatch(description: Option<string>)
    ensures DetermineEventType(description) == FirstMatch(Keywords, Lower(description.GetOr("")))
  {
    var text := Lower(description.GetOr(""));
    var t := Keywords;
    assert t[1..][1..][1..][1..][1..][1..] == [];
  }

  /**
   * First match wins: the result is the category of keyword `k` exactly when
   * keyword `k` occurs and no earlier keyword does; the default is returned
   * exactly when no keyword occurs.
   */
  lemma {:induction false} FirstMatchSpec(table: seq<(string, string)>, text: string, k: nat)
    requires k < |table|
    requires forall i, j :: 0 <= i < j < |table| ==> table[i].1 != table[j].1
    requires forall i :: 0 <= i < |table| ==> table[i].1 != DefaultEventType
    ensures FirstMatch(table, text) == table[k].1 <==>
              Contains(text, table[k].0) && forall j :: 0 <= j < k ==> !Contains(text, table[j].0)
    ensures FirstMatch(table, text) == DefaultEventType <==>
              forall j :: 0 <= j < |table| ==> !Contains(text, table[j].0)
    decreases |table|
  {
    var tail := table[1..];
    assert forall j :: 0 < j < |table| ==> table[j] == tail[j - 1];
    if !Contains(text, table[0].0) {
      if k > 0 {
        FirstMatchSpec(tail, text, k - 1);
      } else {
        FirstMatchRange(tail, text);
      }
      if |table| > 1 {
        FirstMatchSpec(tail, text, 0);
      }
    }
  }

  /** The table walk returns the default or one of the table's categories. */
  lemma {:induction false} FirstMatchRange(table: seq<(string, string)>, text: string)
    ensures FirstMatch(table, text) == DefaultEventType
            || exists i :: 0 <= i < |table| && FirstMatch(table, text) == table[i].1
    decreases |table|
  {
    if table != [] && !Contains(text, table[0].0) {
      FirstMatchRange(table[1..], text);
      if FirstMatch(table, text) != DefaultEventType {
        var i :| 0 <= i < |table[1..]| && FirstMatch(table[1..], text) == table[1..][i].1;
        assert FirstMatch(table, text) == table[i + 1].1;
      }
    }
  }

  /** The category names in the table are distinct and differ from the default. */
  lemma KeywordsWellFormed()
    ensures forall i, j :: 0 <= i < j < |Keywords| ==> Keywords[i].1 != Keywords[j].1
    ensures forall i :: 0 <= i < |Keywords| ==> Keywords[i].1 != DefaultEventType
  {
  }

  /**
   * `determineEventType` picks the category of keyword `k` exactly when the
   * lower-cased description contains keyword `k` and none of the keywords
   * checked before it; "Security Event" exactly when it contains none.
   */
  lemma EventTypeFirstMatchWins(description: Option<string>, k: nat)
    requires k < |Keywords|
    ensures var text := Lower(description.GetOr(""));
      && (DetermineEventType(description) == Keywords[k].1 <==>
            Contains(text, Keywords[k].0) && forall j :: 0 <= j < k ==> !Contains(text, Keywords[j].0))
      && (DetermineEventType(description) == DefaultEventType <==>
            forall j :: 0 <= j < |Keywords| ==> !Contains(text, Keywords[j].0))
  {
    EventTypeIsFirstMatch(description);
    KeywordsWellFormed();
    FirstMatchSpec(Keywords, Lower(description.GetOr("")), k);
  }

  /** "ssh login failure" is SSH activity, not authentication: ssh is checked first. */
  lemma SshBeforeLogin()
    ensures DetermineEventType(Some("ssh login failure")) == "SSH Activity"
  {
    var text := "ssh login failure";
    LowerOfLower(text);
    assert 't' !in text;
    if Contains(text, "snort") {
      ContainsHasChars(text, "snort", 't');
    }
    if Contains(text, "correlation") {
      ContainsHasChars(text, "correlation", 't');
    }
    assert "ssh" <= text;
  }

  /** An absent description is classified as a generic security event. */
  lemma MissingDescriptionIsSecurityEvent()
    ensures DetermineEventType(None) == DefaultEventType
  {
    assert Lower("") == "";
  }
}
